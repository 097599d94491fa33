/** `DatabaseRuntime` under threads that interleave at lock operations.

    A thread holds at most the three mutexes `open`, `kv_open` and the catalog's own lock.
    One action is: starting a call, taking a lock, or running from one lock operation to
    the next. A key stands for (subject, application, database id); generated ids are fresh.
    Catalog calls and engine opens may fail; a failed catalog call changes nothing. */
module RuntimeInterleavings {
  import opened Text

  type Key = nat
  type Thread = nat

  datatype Lock = OpenLock | KvLock | CatalogLock

  datatype Op =
    | Create
    | Delete(key: Key)
    | ApplyTombstone(key: Key)
    | Open(key: Key)
    | OpenSelected(key: Key)
    | OpenKvSelected(key: Key)
    | Query // list, get, is_tombstoned

  datatype Outcome =
    | Failed
    | Absent
    | Handle(key: Key)
    | WasDeleted(key: Key, found: bool)
    | TombstoneTaken(key: Key)
    | Answered

  datatype Pc =
    | Idle(last: Option<Outcome>)
    // calls that work under `open`
    | WantOpen(op: Op)
    | OpenHeld(op: Op)                 // about to lock the catalog
    | OpenCatalog(op: Op)              // inside the catalog call
    | OpenReady(op: Op, key: Key)      // the catalog call said to go on
    | RollbackWant(key: Key)           // create: the engine did not open
    | RollbackCatalog(key: Key)
    | EvictWantKv(op: Op, key: Key)    // evict: gone from `open`, about to lock `kv_open`
    | EvictKv(op: Op, key: Key)
    | Leaving(outcome: Outcome)        // about to release `open` and return
    // open_kv_selected
    | WantKv(key: Key)
    | KvHeld(key: Key)
    | KvCatalog(key: Key)
    | KvReady(key: Key)
    // catalog queries
    | WantCatalog
    | CatalogHeld

  datatype State = State(
    open: set<Key>,
    kv: set<Key>,
    catalog: map<Key, bool>, // true: tombstoned
    openLock: Option<Thread>,
    kvLock: Option<Thread>,
    catalogLock: Option<Thread>,
    pcs: map<Thread, Pc>)

  const Initial := State({}, {}, map[], None, None, None, map[])

  function At(s: State, t: Thread): Pc {
    if t in s.pcs then s.pcs[t] else Idle(None)
  }

  predicate Tomb(s: State, k: Key) {
    k in s.catalog && s.catalog[k]
  }

  predicate Live(s: State, k: Key) {
    k in s.catalog && !s.catalog[k]
  }

  function Holds(pc: Pc): set<Lock> {
    match pc
    case OpenHeld(_) => {OpenLock}
    case OpenCatalog(_) => {OpenLock, CatalogLock}
    case OpenReady(_, _) => {OpenLock}
    case RollbackWant(_) => {OpenLock}
    case RollbackCatalog(_) => {OpenLock, CatalogLock}
    case EvictWantKv(_, _) => {OpenLock}
    case EvictKv(_, _) => {OpenLock, KvLock}
    case Leaving(_) => {OpenLock}
    case KvHeld(_) => {KvLock}
    case KvCatalog(_) => {KvLock, CatalogLock}
    case KvReady(_) => {KvLock}
    case CatalogHeld => {CatalogLock}
    case _ => {}
  }

  function Wants(pc: Pc): Option<Lock> {
    match pc
    case WantOpen(_) => Some(OpenLock)
    case OpenHeld(_) => Some(CatalogLock)
    case RollbackWant(_) => Some(CatalogLock)
    case EvictWantKv(_, _) => Some(KvLock)
    case WantKv(_) => Some(KvLock)
    case KvHeld(_) => Some(CatalogLock)
    case WantCatalog => Some(CatalogLock)
    case _ => None
  }

  function Owner(s: State, l: Lock): Option<Thread> {
    match l
    case OpenLock => s.openLock
    case KvLock => s.kvLock
    case CatalogLock => s.catalogLock
  }

  // ---------------------------------------------------------------- actions

  datatype Action =
    | Start(t: Thread, op: Op)
    | Acquire(t: Thread)
    | Run(t: Thread, minted: Key, ok: bool) // `ok`: the catalog call or engine open succeeds

  function Begin(op: Op): Pc {
    match op
    case OpenKvSelected(k) => WantKv(k)
    case Query => WantCatalog
    case _ => WantOpen(op)
  }

  function Acquired(pc: Pc): Pc
    requires Wants(pc).Some?
  {
    match pc
    case WantOpen(op) => OpenHeld(op)
    case OpenHeld(op) => OpenCatalog(op)
    case RollbackWant(k) => RollbackCatalog(k)
    case EvictWantKv(op, k) => EvictKv(op, k)
    case WantKv(k) => KvHeld(k)
    case KvHeld(k) => KvCatalog(k)
    case WantCatalog => CatalogHeld
  }

  /** `faulty`: the keys whose engine may fail to open right after their creation. */
  predicate Enabled(faulty: set<Key>, s: State, a: Action) {
    match a
    case Start(t, op) => At(s, t).Idle?
    case Acquire(t) => Wants(At(s, t)).Some? && Owner(s, Wants(At(s, t)).value) == None
    case Run(t, minted, ok) =>
      var pc := At(s, t);
      && !pc.Idle? && Wants(pc) == None
      && (pc.OpenCatalog? && pc.op.Create? && ok ==> minted !in s.catalog)
      && (pc.OpenReady? && pc.op.Create? && !ok ==> pc.key in faulty)
  }

  function NewOwner(current: Option<Thread>, l: Lock, t: Thread, pc: Pc): Option<Thread> {
    if l in Holds(pc) then Some(t) else if current == Some(t) then None else current
  }

  /** Thread t goes on to `pc`; the guards it no longer holds there are dropped. */
  function Move(s: State, t: Thread, pc: Pc): State {
    s.(pcs := s.pcs[t := pc],
       openLock := NewOwner(s.openLock, OpenLock, t, pc),
       kvLock := NewOwner(s.kvLock, KvLock, t, pc),
       catalogLock := NewOwner(s.catalogLock, CatalogLock, t, pc))
  }

  function Apply(s: State, a: Action): State {
    match a
    case Start(t, op) => Move(s, t, Begin(op))
    case Acquire(t) => if Wants(At(s, t)) == None then s else Move(s, t, Acquired(At(s, t)))
    case Run(t, minted, ok) =>
      var e := RunFrom(s, At(s, t), minted, ok);
      Move(s, t, e.pc).(open := e.open, kv := e.kv, catalog := e.catalog)
  }

  datatype Effect = Effect(pc: Pc, open: set<Key>, kv: set<Key>, catalog: map<Key, bool>)

  /** What a thread at `pc` does before its next lock operation. */
  function RunFrom(s: State, pc: Pc, minted: Key, ok: bool): Effect {
    match pc
    case OpenCatalog(op) => UnderOpen(s, op, minted, ok)
    case OpenReady(op, k) => AfterCatalog(s, op, k, ok)
    case RollbackCatalog(k) =>
      Effect(Leaving(Failed), s.open, s.kv, if ok && Live(s, k) then s.catalog[k := true] else s.catalog)
    case EvictKv(op, k) =>
      Effect(Leaving(if op.Delete? then WasDeleted(k, true) else TombstoneTaken(k)), s.open, s.kv - {k}, s.catalog)
    case Leaving(outcome) => Stay(s, Idle(Some(outcome)))
    case KvCatalog(k) =>
      if !ok then Stay(s, Idle(Some(Failed)))
      else if Tomb(s, k) then Stay(s, Idle(Some(Absent)))
      else Effect(KvReady(k), s.open, s.kv, s.catalog[k := false])
    case KvReady(k) =>
      if k in s.kv || ok then Effect(Idle(Some(Handle(k))), s.open, s.kv + {k}, s.catalog)
      else Stay(s, Idle(Some(Failed)))
    case CatalogHeld => Stay(s, Idle(Some(Answered)))
    case _ => Stay(s, pc)
  }

  function Stay(s: State, pc: Pc): Effect {
    Effect(pc, s.open, s.kv, s.catalog)
  }

  /** The catalog call made under `open`. */
  function UnderOpen(s: State, op: Op, minted: Key, ok: bool): Effect {
    if !ok then Stay(s, Leaving(Failed)) else
    match op
    case Create => Effect(OpenReady(op, minted), s.open, s.kv, s.catalog[minted := false])
    case Delete(k) =>
      if Live(s, k) then Effect(OpenReady(op, k), s.open, s.kv, s.catalog[k := true])
      else Stay(s, Leaving(WasDeleted(k, false)))
    case ApplyTombstone(k) => Effect(OpenReady(op, k), s.open, s.kv, s.catalog[k := true])
    case Open(k) => Stay(s, if Live(s, k) then OpenReady(op, k) else Leaving(Absent))
    case OpenSelected(k) =>
      if Tomb(s, k) then Stay(s, Leaving(Absent))
      else Effect(OpenReady(op, k), s.open, s.kv, s.catalog[k := false])
    case _ => Stay(s, Leaving(Answered))
  }

  /** What follows it, still under `open`: cache the handle, or start the eviction. */
  function AfterCatalog(s: State, op: Op, k: Key, ok: bool): Effect {
    match op
    case Delete(_) => Effect(EvictWantKv(op, k), s.open - {k}, s.kv, s.catalog)
    case ApplyTombstone(_) => Effect(EvictWantKv(op, k), s.open - {k}, s.kv, s.catalog)
    case Create =>
      if ok then Effect(Leaving(Handle(k)), s.open + {k}, s.kv, s.catalog) else Stay(s, RollbackWant(k))
    case _ =>
      if k in s.open || ok then Effect(Leaving(Handle(k)), s.open + {k}, s.kv, s.catalog)
      else Stay(s, Leaving(Failed))
  }

  /** A run is the sequence of its actions. */
  predicate IsRun(faulty: set<Key>, run: seq<Action>) {
    run == [] ||
    (IsRun(faulty, run[..|run| - 1]) && Enabled(faulty, After(run[..|run| - 1]), run[|run| - 1]))
  }

  function After(run: seq<Action>): State {
    if run == [] then Initial else Apply(After(run[..|run| - 1]), run[|run| - 1])
  }

  // ---------------------------------------------------------------- the invariant

  predicate Evicts(op: Op) {
    op.Delete? || op.ApplyTombstone?
  }

  /** The owner of `open` has tombstoned k and has not yet dropped it from `open`. */
  predicate BeforeOpenEviction(s: State, k: Key) {
    && s.openLock.Some?
    && At(s, s.openLock.value).OpenReady? && Evicts(At(s, s.openLock.value).op)
    && At(s, s.openLock.value).key == k
  }

  predicate BeforeKvLock(s: State, k: Key) {
    || BeforeOpenEviction(s, k)
    || (s.openLock.Some? && At(s, s.openLock.value).EvictWantKv? && At(s, s.openLock.value).key == k)
  }

  /** Some thread is between writing k's tombstone and the end of k's eviction. */
  predicate MidEviction(s: State, k: Key) {
    || BeforeKvLock(s, k)
    || (s.openLock.Some? && At(s, s.openLock.value).EvictKv? && At(s, s.openLock.value).key == k)
  }

  predicate KvInFlight(s: State, k: Key) {
    s.kvLock.Some? && At(s, s.kvLock.value) == KvReady(k)
  }

  /** A lock is owned by exactly the thread whose program counter says so. */
  predicate LockFacts(s: State, t: Thread) {
    && (s.openLock == Some(t) <==> OpenLock in Holds(At(s, t)))
    && (s.kvLock == Some(t) <==> KvLock in Holds(At(s, t)))
    && (s.catalogLock == Some(t) <==> CatalogLock in Holds(At(s, t)))
  }

  /** What the program counters say about their keys. */
  predicate PcFacts(s: State, faulty: set<Key>, pc: Pc) {
    match pc
    case OpenReady(op, k) =>
      if Evicts(op) then Tomb(s, k) && op.key == k
      else if op.Create? then Live(s, k) && k !in s.open
      else Live(s, k) && (op.Open? || op.OpenSelected?) && op.key == k
    case RollbackWant(k) => Live(s, k) && k !in s.open && k in faulty
    case RollbackCatalog(k) => Live(s, k) && k !in s.open && k in faulty
    case EvictWantKv(op, k) => Tomb(s, k) && Evicts(op) && op.key == k && k !in s.open
    case EvictKv(op, k) => Tomb(s, k) && Evicts(op) && op.key == k && k !in s.open
    case KvReady(k) => k in s.catalog
    case Leaving(TombstoneTaken(k)) => Gone(s, k)
    case Leaving(WasDeleted(k, true)) => Gone(s, k)
    case _ => true
  }

  /** Tombstoned, in no cache, and no key-value handle for it on the way. */
  predicate Gone(s: State, k: Key) {
    Tomb(s, k) && k !in s.open && k !in s.kv && !KvInFlight(s, k)
  }

  predicate KvFacts(s: State, k: Key) {
    && (k in s.kv && Tomb(s, k) ==> MidEviction(s, k))
    && (KvInFlight(s, k) && Tomb(s, k) ==> BeforeKvLock(s, k))
  }

  predicate CacheFacts(s: State, faulty: set<Key>, k: Key) {
    && (k in s.open || k in s.kv ==> k in s.catalog)
    && (k in s.open && Tomb(s, k) ==> BeforeOpenEviction(s, k))
    && (k !in faulty ==> KvFacts(s, k))
  }

  ghost predicate Inv(s: State, faulty: set<Key>) {
    && (forall t: Thread :: LockFacts(s, t))
    && (forall t: Thread :: PcFacts(s, faulty, At(s, t)))
    && (forall k: Key :: CacheFacts(s, faulty, k))
  }

  /** Locks stay consistent when a thread gains only locks that were free. */
  lemma MoveKeepsLocks(s: State, t: Thread, pc: Pc)
    requires forall u: Thread :: LockFacts(s, u)
    requires forall l :: l in Holds(pc) && l !in Holds(At(s, t)) ==> Owner(s, l) == None
    ensures forall u: Thread :: LockFacts(Move(s, t, pc), u)
  {
    forall u: Thread ensures LockFacts(Move(s, t, pc), u) {
      assert LockFacts(s, u) && LockFacts(s, t);
    }
  }

  lemma StartKeepsInv(s: State, faulty: set<Key>, t: Thread, op: Op)
    requires Inv(s, faulty) && At(s, t).Idle?
    ensures Inv(Apply(s, Start(t, op)), faulty)
  {
    var s' := Apply(s, Start(t, op));
    assert LockFacts(s, t);
    MoveKeepsLocks(s, t, Begin(op));
    forall u: Thread ensures PcFacts(s', faulty, At(s', u)) {
      assert PcFacts(s, faulty, At(s, u));
    }
    forall k: Key ensures CacheFacts(s', faulty, k) {
      assert CacheFacts(s, faulty, k);
    }
  }

  lemma AcquireKeepsInv(s: State, faulty: set<Key>, t: Thread)
    requires Inv(s, faulty) && Enabled(faulty, s, Acquire(t))
    ensures Inv(Apply(s, Acquire(t)), faulty)
  {
    var s' := Apply(s, Acquire(t));
    assert LockFacts(s, t);
    MoveKeepsLocks(s, t, Acquired(At(s, t)));
    forall u: Thread ensures PcFacts(s', faulty, At(s', u)) {
      assert PcFacts(s, faulty, At(s, u)) && PcFacts(s, faulty, At(s, t));
    }
    forall k: Key ensures CacheFacts(s', faulty, k) {
      assert CacheFacts(s, faulty, k);
    }
  }

  /** Running never takes a lock. */
  lemma RunTakesNoLock(s: State, pc: Pc, minted: Key, ok: bool)
    ensures Holds(RunFrom(s, pc, minted, ok).pc) <= Holds(pc)
  {
  }

  lemma RunKeepsLocks(s: State, faulty: set<Key>, t: Thread, minted: Key, ok: bool)
    requires Inv(s, faulty)
    ensures forall u: Thread :: LockFacts(Apply(s, Run(t, minted, ok)), u)
  {
    var e := RunFrom(s, At(s, t), minted, ok);
    RunTakesNoLock(s, At(s, t), minted, ok);
    MoveKeepsLocks(s, t, e.pc);
    forall u: Thread ensures LockFacts(Apply(s, Run(t, minted, ok)), u) {
      assert LockFacts(Move(s, t, e.pc), u);
    }
  }

  lemma RunKeepsPcs(s: State, faulty: set<Key>, t: Thread, minted: Key, ok: bool, u: Thread)
    requires Inv(s, faulty) && Enabled(faulty, s, Run(t, minted, ok))
    ensures PcFacts(Apply(s, Run(t, minted, ok)), faulty, At(Apply(s, Run(t, minted, ok)), u))
  {
    assert LockFacts(s, u) && LockFacts(s, t);
    assert PcFacts(s, faulty, At(s, u)) && PcFacts(s, faulty, At(s, t));
    assert CacheFacts(s, faulty, minted);
  }

  lemma RunKeepsOpenCache(s: State, faulty: set<Key>, t: Thread, minted: Key, ok: bool, k: Key)
    requires Inv(s, faulty) && Enabled(faulty, s, Run(t, minted, ok))
    ensures var s' := Apply(s, Run(t, minted, ok));
            (k in s'.open || k in s'.kv ==> k in s'.catalog) &&
            (k in s'.open && Tomb(s', k) ==> BeforeOpenEviction(s', k))
  {
    assert CacheFacts(s, faulty, k) && LockFacts(s, t) && PcFacts(s, faulty, At(s, t));
    if s.openLock.Some? { assert LockFacts(s, s.openLock.value); }
  }

  lemma RunKeepsCachedKv(s: State, faulty: set<Key>, t: Thread, minted: Key, ok: bool, k: Key)
    requires Inv(s, faulty) && Enabled(faulty, s, Run(t, minted, ok)) && KvFacts(s, k)
    requires At(s, t) == RollbackCatalog(k) ==> k !in s.kv
    ensures var s' := Apply(s, Run(t, minted, ok)); k in s'.kv && Tomb(s', k) ==> MidEviction(s', k)
  {
    assert CacheFacts(s, faulty, k) && LockFacts(s, t) && PcFacts(s, faulty, At(s, t));
    if s.openLock.Some? { assert LockFacts(s, s.openLock.value); }
  }

  lemma RunKeepsKvInFlight(s: State, faulty: set<Key>, t: Thread, minted: Key, ok: bool, k: Key)
    requires Inv(s, faulty) && Enabled(faulty, s, Run(t, minted, ok)) && KvFacts(s, k)
    requires At(s, t) == RollbackCatalog(k) ==> !KvInFlight(s, k)
    ensures var s' := Apply(s, Run(t, minted, ok)); KvInFlight(s', k) && Tomb(s', k) ==> BeforeKvLock(s', k)
  {
    assert CacheFacts(s, faulty, k) && LockFacts(s, t) && PcFacts(s, faulty, At(s, t));
    if s.openLock.Some? { assert LockFacts(s, s.openLock.value); }
    if s.kvLock.Some? { assert LockFacts(s, s.kvLock.value); }
  }

  /** Only the rollback of a creation can write a tombstone without an eviction to follow. */
  lemma RunKeepsKvFacts(s: State, faulty: set<Key>, t: Thread, minted: Key, ok: bool, k: Key)
    requires Inv(s, faulty) && Enabled(faulty, s, Run(t, minted, ok)) && KvFacts(s, k)
    requires At(s, t) == RollbackCatalog(k) ==> k !in s.kv && !KvInFlight(s, k)
    ensures KvFacts(Apply(s, Run(t, minted, ok)), k)
  {
    RunKeepsCachedKv(s, faulty, t, minted, ok, k);
    RunKeepsKvInFlight(s, faulty, t, minted, ok, k);
  }

  lemma RunKeepsCaches(s: State, faulty: set<Key>, t: Thread, minted: Key, ok: bool, k: Key)
    requires Inv(s, faulty) && Enabled(faulty, s, Run(t, minted, ok))
    ensures CacheFacts(Apply(s, Run(t, minted, ok)), faulty, k)
  {
    RunKeepsOpenCache(s, faulty, t, minted, ok, k);
    if k !in faulty {
      assert CacheFacts(s, faulty, k) && PcFacts(s, faulty, At(s, t));
      RunKeepsKvFacts(s, faulty, t, minted, ok, k);
    }
  }

  lemma RunKeepsInv(s: State, faulty: set<Key>, t: Thread, minted: Key, ok: bool)
    requires Inv(s, faulty) && Enabled(faulty, s, Run(t, minted, ok))
    ensures Inv(Apply(s, Run(t, minted, ok)), faulty)
  {
    var s' := Apply(s, Run(t, minted, ok));
    RunKeepsLocks(s, faulty, t, minted, ok);
    forall u: Thread ensures PcFacts(s', faulty, At(s', u)) { RunKeepsPcs(s, faulty, t, minted, ok, u); }
    forall k: Key ensures CacheFacts(s', faulty, k) { RunKeepsCaches(s, faulty, t, minted, ok, k); }
  }

  lemma {:induction false} RunsKeepInv(faulty: set<Key>, run: seq<Action>)
    requires IsRun(faulty, run)
    ensures Inv(After(run), faulty)
  {
    if run != [] {
      var before := run[..|run| - 1];
      RunsKeepInv(faulty, before);
      match run[|run| - 1]
      case Start(t, op) => StartKeepsInv(After(before), faulty, t, op);
      case Acquire(t) => AcquireKeepsInv(After(before), faulty, t);
      case Run(t, minted, ok) => RunKeepsInv(After(before), faulty, t, minted, ok);
    }
  }

  // ---------------------------------------------------------------- no stale handles

  /** A tombstoned database is in a cache only while its own eviction is under way. */
  predicate NoStaleHandle(s: State, k: Key) {
    Tomb(s, k) && (k in s.open || k in s.kv) ==> MidEviction(s, k)
  }

  /** Exactly the databases whose engine opens after creation never leave a stale handle
      behind, whatever the interleaving. */
  lemma NoStaleHandleIff(faulty: set<Key>, k: Key)
    ensures (forall run :: IsRun(faulty, run) ==> NoStaleHandle(After(run), k)) <==> k !in faulty
  {
    if k !in faulty {
      forall run | IsRun(faulty, run) ensures NoStaleHandle(After(run), k) {
        RunsKeepInv(faulty, run);
        assert CacheFacts(After(run), faulty, k);
      }
    } else {
      var run := StaleHandle(faulty, k);
    }
  }

  lemma Extend(faulty: set<Key>, run: seq<Action>, a: Action, s': State) returns (longer: seq<Action>)
    requires IsRun(faulty, run) && Enabled(faulty, After(run), a) && Apply(After(run), a) == s'
    ensures IsRun(faulty, longer) && After(longer) == s' && longer == run + [a]
  {
    longer := run + [a];
    assert longer[..|run|] == run;
  }

  /** Thread 0 alone, at `pc`, with the locks that it holds there. */
  function Alone(catalog: map<Key, bool>, pc: Pc): State {
    Move(State({}, {}, catalog, None, None, None, map[]), 0, pc)
  }

  lemma AloneMoves(catalog: map<Key, bool>, first: Pc, second: Pc)
    ensures At(Alone(catalog, first), 0) == first
    ensures Move(Alone(catalog, first), 0, second) == Alone(catalog, second)
  {
    MovedTwice(State({}, {}, catalog, None, None, None, map[]), 0, first, second);
  }

  /** A thread is about to write the record of a database it creates. */
  lemma Creating(faulty: set<Key>) returns (run: seq<Action>)
    ensures IsRun(faulty, run) && After(run) == Alone(map[], OpenCatalog(Create))
  {
    run := Extend(faulty, [], Start(0, Create), Alone(map[], WantOpen(Create)));
    AloneMoves(map[], WantOpen(Create), OpenHeld(Create));
    run := Extend(faulty, run, Acquire(0), Alone(map[], OpenHeld(Create)));
    AloneMoves(map[], OpenHeld(Create), OpenCatalog(Create));
    run := Extend(faulty, run, Acquire(0), Alone(map[], OpenCatalog(Create)));
  }

  /** A thread has created k and is about to open its engine. */
  lemma CreatedNotOpened(faulty: set<Key>, k: Key) returns (run: seq<Action>)
    ensures IsRun(faulty, run) && After(run) == Alone(map[k := false], OpenReady(Create, k))
  {
    run := Creating(faulty);
    AloneMoves(map[], OpenCatalog(Create), OpenReady(Create, k));
    run := Extend(faulty, run, Run(0, k, true), Alone(map[k := false], OpenReady(Create, k)));
  }

  lemma MovedTwice(s: State, t: Thread, first: Pc, second: Pc)
    requires forall l :: l in Holds(first) ==> Owner(s, l) == None || Owner(s, l) == Some(t)
    ensures Move(Move(s, t, first), t, second) == Move(s, t, second)
  {
    assert s.pcs[t := first][t := second] == s.pcs[t := second];
  }

  /** From a state with `kv_open` and the catalog free, a thread that opens the key-value
      store of a database that is not tombstoned gets it, with no other effect. */
  lemma KvOpens(faulty: set<Key>, run: seq<Action>, s: State, t: Thread, k: Key) returns (longer: seq<Action>)
    requires IsRun(faulty, run) && s == After(run) && At(s, t).Idle?
    requires s.kvLock == None && s.catalogLock == None && !Tomb(s, k)
    ensures IsRun(faulty, longer)
    ensures After(longer) == Move(s, t, Idle(Some(Handle(k)))).(kv := s.kv + {k}, catalog := s.catalog[k := false])
  {
    longer := Extend(faulty, run, Start(t, OpenKvSelected(k)), Move(s, t, WantKv(k)));
    longer := KvLocks(faulty, longer, s, t, k);
    longer := KvOpensInside(faulty, longer, s, t, k);
  }

  lemma KvLocks(faulty: set<Key>, run: seq<Action>, s: State, t: Thread, k: Key) returns (longer: seq<Action>)
    requires IsRun(faulty, run) && s.kvLock == None && s.catalogLock == None
    requires After(run) == Move(s, t, WantKv(k))
    ensures IsRun(faulty, longer) && After(longer) == Move(s, t, KvCatalog(k))
  {
    longer := Acquires(faulty, run, s, t, WantKv(k), KvLock);
    longer := Acquires(faulty, longer, s, t, KvHeld(k), CatalogLock);
  }

  /** A thread waiting for a lock nobody has gets it. */
  lemma Acquires(faulty: set<Key>, run: seq<Action>, s: State, t: Thread, pc: Pc, l: Lock) returns (longer: seq<Action>)
    requires IsRun(faulty, run) && After(run) == Move(s, t, pc) && Wants(pc) == Some(l) && Owner(s, l) == None
    requires l !in Holds(pc)
    requires forall h :: h in Holds(pc) ==> Owner(s, h) == None || Owner(s, h) == Some(t)
    ensures IsRun(faulty, longer) && After(longer) == Move(s, t, Acquired(pc))
  {
    MovedTwice(s, t, pc, Acquired(pc));
    assert At(After(run), t) == pc;
    longer := Extend(faulty, run, Acquire(t), Move(s, t, Acquired(pc)));
  }

  lemma KvOpensInside(faulty: set<Key>, run: seq<Action>, s: State, t: Thread, k: Key) returns (longer: seq<Action>)
    requires IsRun(faulty, run) && s.kvLock == None && s.catalogLock == None && !Tomb(s, k)
    requires After(run) == Move(s, t, KvCatalog(k))
    ensures IsRun(faulty, longer)
    ensures After(longer) == Move(s, t, Idle(Some(Handle(k)))).(kv := s.kv + {k}, catalog := s.catalog[k := false])
  {
    MovedTwice(s, t, KvCatalog(k), KvReady(k));
    var registered := s.(catalog := s.catalog[k := false]);
    longer := Extend(faulty, run, Run(t, 0, true), Move(registered, t, KvReady(k)));
    longer := KvCaches(faulty, longer, registered, t, k);
  }

  lemma KvCaches(faulty: set<Key>, run: seq<Action>, s: State, t: Thread, k: Key) returns (longer: seq<Action>)
    requires IsRun(faulty, run) && s.kvLock == None && After(run) == Move(s, t, KvReady(k))
    ensures IsRun(faulty, longer) && After(longer) == Move(s, t, Idle(Some(Handle(k)))).(kv := s.kv + {k})
  {
    MovedTwice(s, t, KvReady(k), Idle(Some(Handle(k))));
    longer := Extend(faulty, run, Run(t, 0, true), Move(s, t, Idle(Some(Handle(k)))).(kv := s.kv + {k}));
  }

  /** A creation whose engine does not open writes the tombstone and evicts nothing. */
  lemma RollsBack(faulty: set<Key>, run: seq<Action>, s: State, t: Thread, k: Key) returns (longer: seq<Action>)
    requires IsRun(faulty, run) && s == After(run) && At(s, t) == OpenReady(Create, k) && k in faulty
    requires s.openLock == Some(t) && s.catalogLock == None && Live(s, k)
    ensures IsRun(faulty, longer)
    ensures After(longer) == Move(s, t, Idle(Some(Failed))).(catalog := s.catalog[k := true])
  {
    var s1 := Move(s, t, RollbackWant(k));
    var s2 := Move(s, t, RollbackCatalog(k));
    longer := Extend(faulty, run, Run(t, 0, false), s1);
    MovedTwice(s, t, RollbackWant(k), RollbackCatalog(k));
    longer := Extend(faulty, longer, Acquire(t), s2);
    longer := RollsBackInside(faulty, longer, s, t, k);
  }

  lemma RollsBackInside(faulty: set<Key>, run: seq<Action>, s: State, t: Thread, k: Key) returns (longer: seq<Action>)
    requires IsRun(faulty, run) && s.openLock == Some(t) && s.catalogLock == None && Live(s, k)
    requires After(run) == Move(s, t, RollbackCatalog(k))
    ensures IsRun(faulty, longer)
    ensures After(longer) == Move(s, t, Idle(Some(Failed))).(catalog := s.catalog[k := true])
  {
    MovedTwice(s, t, RollbackCatalog(k), Leaving(Failed));
    var s3 := Move(s, t, Leaving(Failed)).(catalog := s.catalog[k := true]);
    longer := Extend(faulty, run, Run(t, 0, true), s3);
    MovedTwice(s, t, Leaving(Failed), Idle(Some(Failed)));
    longer := Extend(faulty, longer, Run(t, 0, true),
      Move(s, t, Idle(Some(Failed))).(catalog := s.catalog[k := true]));
  }

  /** A second thread opens the key-value store of a database between its creation and the
      failure of its engine; with both threads idle, a tombstoned database stays cached. */
  lemma StaleHandle(faulty: set<Key>, k: Key) returns (run: seq<Action>)
    requires k in faulty
    ensures IsRun(faulty, run) && !NoStaleHandle(After(run), k)
    ensures forall t: Thread :: At(After(run), t).Idle?
  {
    run := CreatedNotOpened(faulty, k);
    run := KvOpens(faulty, run, After(run), 1, k);
    run := RollsBack(faulty, run, After(run), 0, k);
  }

  // ---------------------------------------------------------------- after a delete returns

  /** Once gone, a database never comes back into a cache. */
  lemma GoneIsStable(s: State, faulty: set<Key>, a: Action, k: Key)
    requires Inv(s, faulty) && Enabled(faulty, s, a) && Gone(s, k)
    ensures Gone(Apply(s, a), k)
  {
    assert LockFacts(s, a.t) && PcFacts(s, faulty, At(s, a.t));
    if s.kvLock.Some? { assert LockFacts(s, s.kvLock.value); }
  }

  /** The step by which a thread returns from deleting, or importing the tombstone of, k. */
  predicate ReturnsDeletion(s: State, a: Action, k: Key) {
    && a.Run?
    && (At(s, a.t) == Leaving(TombstoneTaken(k)) || At(s, a.t) == Leaving(WasDeleted(k, true)))
  }

  /** The step by which a thread returns from a deletion that found k tombstoned already. */
  predicate ReturnsNothingToDelete(s: State, a: Action, k: Key) {
    a.Run? && At(s, a.t) == Leaving(WasDeleted(k, false)) && Tomb(s, k)
  }

  /** A deletion that finds k tombstoned already finds it gone: it holds `open`, so no eviction
      can be under way. */
  lemma NothingToDelete(faulty: set<Key>, s: State, t: Thread, k: Key)
    requires Inv(s, faulty) && At(s, t) == Leaving(WasDeleted(k, false)) && Tomb(s, k) && KvFacts(s, k)
    ensures Gone(s, k)
  {
    assert CacheFacts(s, faulty, k) && LockFacts(s, t);
  }

  lemma {:induction false} GoneForGood(faulty: set<Key>, run: seq<Action>, more: seq<Action>, k: Key)
    requires IsRun(faulty, run + more) && Gone(After(run), k)
    ensures Gone(After(run + more), k)
    decreases |more|
  {
    if more == [] {
      assert run + more == run;
    } else {
      var fewer := more[..|more| - 1];
      assert (run + more)[..|run + more| - 1] == run + fewer;
      GoneForGood(faulty, run, fewer, k);
      RunsKeepInv(faulty, run + fewer);
      GoneIsStable(After(run + fewer), faulty, more[|more| - 1], k);
    }
  }

  lemma {:induction false} RunPrefix(faulty: set<Key>, run: seq<Action>, more: seq<Action>)
    requires IsRun(faulty, run + more)
    ensures IsRun(faulty, run)
    decreases |more|
  {
    if more == [] {
      assert run + more == run;
    } else {
      assert (run + more)[..|run + more| - 1] == run + more[..|more| - 1];
      RunPrefix(faulty, run, more[..|more| - 1]);
    }
  }

  /** From the return of a deletion or of an imported tombstone on, in every continuation of
      every run, the database is in neither cache; and so when there was nothing left to
      delete, unless the tombstone may be that of a failed creation. */
  lemma DeletedStaysGone(faulty: set<Key>, run: seq<Action>, more: seq<Action>, k: Key)
    requires run != [] && IsRun(faulty, run + more)
    requires var s := After(run[..|run| - 1]);
             ReturnsDeletion(s, run[|run| - 1], k) || (ReturnsNothingToDelete(s, run[|run| - 1], k) && k !in faulty)
    ensures Gone(After(run + more), k)
  {
    RunPrefix(faulty, run, more);
    RunsKeepInv(faulty, run[..|run| - 1]);
    var s, a := After(run[..|run| - 1]), run[|run| - 1];
    assert PcFacts(s, faulty, At(s, a.t)) && CacheFacts(s, faulty, k);
    if !ReturnsDeletion(s, a, k) { NothingToDelete(faulty, s, a.t, k); }
    GoneIsStable(s, faulty, a, k);
    GoneForGood(faulty, run, more, k);
  }

  // ---------------------------------------------------------------- no deadlock

  function Rank(l: Lock): nat {
    match l case OpenLock => 0 case KvLock => 1 case CatalogLock => 2
  }

  /** A thread only ever waits for a lock that comes after all the locks it holds. */
  lemma LockOrder(pc: Pc, held: Lock)
    requires Wants(pc).Some? && held in Holds(pc)
    ensures Rank(held) < Rank(Wants(pc).value)
  {
  }

  /** In every reachable state with a call in progress, some call in progress can move. */
  lemma NoDeadlock(faulty: set<Key>, run: seq<Action>, waiting: Thread) returns (a: Action)
    requires IsRun(faulty, run) && !At(After(run), waiting).Idle?
    ensures !a.Start? && Enabled(faulty, After(run), a) && !At(After(run), a.t).Idle?
  {
    var s := After(run);
    RunsKeepInv(faulty, run);
    var t := if s.catalogLock.Some? then s.catalogLock.value
             else if s.kvLock.Some? then s.kvLock.value
             else if s.openLock.Some? then s.openLock.value
             else waiting;
    assert LockFacts(s, t);
    if Wants(At(s, t)).Some? {
      a := Acquire(t);
    } else {
      var k := Unused(s.catalog.Keys);
      a := Run(t, k, true);
    }
  }
}
