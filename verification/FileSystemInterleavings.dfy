/** `ScopedFileSystemRuntime` called by any number of threads. The catalog step of applying a
    tombstone, and both catalog steps of registering a selected resource, run outside the lock
    on the open file systems; all other steps run inside it. Whether an import of a live entry
    keeps a tombstone it meets is up to the catalog and therefore a parameter. */
module FileSystemInterleavings {
  import opened Text

  type Thread = nat
  type Key = nat

  datatype Outcome = Nothing | Failed | Got(k: Key) | Gone(k: Key) | Registered(k: Key)

  datatype Pc =
    | Idle(last: Outcome)
    | Looking(k: Key)      // `open_resource` with the lock, the file system not being cached
    | Opened(k: Key)       // the same, the file system opened and its residency being set
    | Applied(k: Key)      // `apply_deletion_tombstone` after its catalog step, without the lock
    | Deleting(k: Key)     // `delete_resource` with the lock, after its catalog step
    | Importing(k: Key)    // `register_selected_resource`, no entry having been found
    | Evicting             // `remove_unselected_projected_resources` with the lock

  datatype State = State(
    entries: map<Key, bool>,   // the catalogs; true: tombstoned
    cached: set<Key>,          // the open file systems
    lock: Option<Thread>,
    threads: map<Thread, Pc>)

  const Empty := State(map[], {}, None, map[])

  datatype Action =
    | Create(k: Key)
    | LockToOpen(k: Key)
    | OpenFileSystem(works: bool)
    | Insert(works: bool)
    | ApplyTombstone(k: Key)
    | DropTombstoned
    | LockToDelete(k: Key)
    | DropDeleted
    | Snapshot(k: Key)
    | Import(works: bool)
    | LockToEvict
    | EvictCopy(k: Key)
    | EndEviction

  datatype Step = Step(thread: Thread, action: Action)

  function PcOf(s: State, t: Thread): Pc {
    if t in s.threads then s.threads[t] else Idle(Nothing)
  }

  predicate Tombstoned(s: State, k: Key) {
    k in s.entries && s.entries[k]
  }

  predicate Live(s: State, k: Key) {
    k in s.entries && !s.entries[k]
  }

  /** Calls begin on idle threads; a lock is taken when it is free. New keys are fresh. */
  predicate Enabled(s: State, step: Step) {
    var pc := PcOf(s, step.thread);
    match step.action
    case Create(k) => pc.Idle? && k !in s.entries
    case LockToOpen(_) => pc.Idle? && s.lock == None
    case OpenFileSystem(_) => pc.Looking?
    case Insert(_) => pc.Opened?
    case ApplyTombstone(_) => pc.Idle?
    case DropTombstoned => pc.Applied? && s.lock == None
    case LockToDelete(_) => pc.Idle? && s.lock == None
    case DropDeleted => pc.Deleting?
    case Snapshot(_) => pc.Idle?
    case Import(_) => pc.Importing?
    case LockToEvict => pc.Idle? && s.lock == None
    case EvictCopy(_) => pc.Evicting?
    case EndEviction => pc.Evicting?
  }

  function At(s: State, t: Thread, pc: Pc): State {
    s.(threads := s.threads[t := pc])
  }

  function Apply(keeps: bool, s: State, step: Step): State
    requires Enabled(s, step)
  {
    var t, pc := step.thread, PcOf(s, step.thread);
    match step.action
    case Create(k) => At(s.(entries := s.entries[k := false]), t, Idle(Nothing))
    case LockToOpen(k) =>
      if k in s.cached then At(s, t, Idle(Got(k))) else At(s.(lock := Some(t)), t, Looking(k))
    case OpenFileSystem(works) =>
      if works && Live(s, pc.k) then At(s, t, Opened(pc.k)) else At(s.(lock := None), t, Idle(Failed))
    case Insert(works) =>
      if works then At(s.(cached := s.cached + {pc.k}, lock := None), t, Idle(Got(pc.k)))
      else At(s.(lock := None), t, Idle(Failed))
    case ApplyTombstone(k) => At(s.(entries := s.entries[k := true]), t, Applied(k))
    case DropTombstoned => At(s.(cached := s.cached - {pc.k}), t, Idle(Gone(pc.k)))
    case LockToDelete(k) =>
      if Live(s, k) then At(s.(entries := s.entries[k := true], lock := Some(t)), t, Deleting(k))
      else At(s, t, Idle(Failed))
    case DropDeleted => At(s.(cached := s.cached - {pc.k}, lock := None), t, Idle(Gone(pc.k)))
    case Snapshot(k) =>
      if Tombstoned(s, k) then At(s, t, Idle(Failed))
      else if Live(s, k) then At(s, t, Idle(Registered(k)))
      else At(s, t, Importing(k))
    case Import(works) =>
      if !works then At(s, t, Idle(Failed))
      else if keeps && Tombstoned(s, pc.k) then At(s, t, Idle(Registered(pc.k)))
      else At(s.(entries := s.entries[pc.k := false]), t, Idle(Registered(pc.k)))
    case LockToEvict => At(s.(lock := Some(t)), t, Evicting)
    case EvictCopy(k) => s.(cached := s.cached - {k})
    case EndEviction => At(s.(lock := None), t, Idle(Nothing))
  }

  predicate IsRun(keeps: bool, run: seq<Step>)
    decreases |run|, 0
  {
    run == [] || (IsRun(keeps, run[..|run| - 1]) && Enabled(After(keeps, run[..|run| - 1]), run[|run| - 1]))
  }

  function After(keeps: bool, run: seq<Step>): State
    requires IsRun(keeps, run)
    decreases |run|, 1
  {
    if run == [] then Empty else Apply(keeps, After(keeps, run[..|run| - 1]), run[|run| - 1])
  }

  // ---------------------------------------------------------------- what every step keeps

  predicate HoldsLock(pc: Pc) {
    pc.Looking? || pc.Opened? || pc.Deleting? || pc.Evicting?
  }

  predicate LockHeld(s: State) {
    forall t :: t in s.threads && HoldsLock(s.threads[t]) ==> s.lock == Some(t)
  }

  predicate DeletesTombstone(pc: Pc, s: State) {
    pc.Applied? || pc.Deleting? ==> Tombstoned(s, pc.k)
  }

  predicate TombstonesFirst(s: State) {
    forall t :: t in s.threads ==> DeletesTombstone(s.threads[t], s)
  }

  lemma StepKeepsLock(keeps: bool, s: State, step: Step)
    requires LockHeld(s) && Enabled(s, step)
    ensures LockHeld(Apply(keeps, s, step))
  {
  }

  lemma StepKeepsTombstones(s: State, step: Step, k: Key)
    requires Enabled(s, step) && Tombstoned(s, k)
    ensures Tombstoned(Apply(true, s, step), k)
  {
  }

  lemma StepKeepsTombstonesFirst(s: State, step: Step)
    requires TombstonesFirst(s) && Enabled(s, step)
    ensures TombstonesFirst(Apply(true, s, step))
  {
    var after := Apply(true, s, step);
    forall t | t in after.threads ensures DeletesTombstone(after.threads[t], after) {
      if t in s.threads && (s.threads[t].Applied? || s.threads[t].Deleting?) {
        StepKeepsTombstones(s, step, s.threads[t].k);
      }
    }
  }

  lemma {:induction false} RunsKeepInv(run: seq<Step>)
    requires IsRun(true, run)
    ensures LockHeld(After(true, run)) && TombstonesFirst(After(true, run))
  {
    if run != [] {
      RunsKeepInv(run[..|run| - 1]);
      StepKeepsLock(true, After(true, run[..|run| - 1]), run[|run| - 1]);
      StepKeepsTombstonesFirst(After(true, run[..|run| - 1]), run[|run| - 1]);
    }
  }

  // ---------------------------------------------------------------- deleted stays gone

  /** Tombstoned, not cached, and not about to be. */
  predicate IsGone(s: State, k: Key) {
    Tombstoned(s, k) && k !in s.cached && forall t :: t in s.threads ==> s.threads[t] != Opened(k)
  }

  /** Once gone, a file system stays gone, and no step hands it out. */
  lemma GoneStays(s: State, step: Step, k: Key)
    requires Enabled(s, step) && IsGone(s, k)
    ensures IsGone(Apply(true, s, step), k)
    ensures PcOf(Apply(true, s, step), step.thread) != Idle(Got(k))
  {
    StepKeepsTombstones(s, step, k);
    assert PcOf(s, step.thread) != Opened(k);
  }

  /** When a deletion returns, the file system is gone: an opening that overlapped with it held
      the lock that the deletion then took. */
  lemma GoneOnReturn(s: State, step: Step, k: Key)
    requires LockHeld(s) && TombstonesFirst(s) && Enabled(s, step)
    requires PcOf(Apply(true, s, step), step.thread) == Idle(Gone(k))
    ensures IsGone(Apply(true, s, step), k)
  {
    assert PcOf(s, step.thread).k == k && step.thread in s.threads;
    assert DeletesTombstone(s.threads[step.thread], s);
    StepKeepsTombstones(s, step, k);
  }

  /** What a thread's last call deleted is gone. */
  predicate ReturnsGone(s: State) {
    forall t :: t in s.threads && s.threads[t].Idle? && s.threads[t].last.Gone? ==> IsGone(s, s.threads[t].last.k)
  }

  lemma StepKeepsReturnsGone(s: State, step: Step)
    requires LockHeld(s) && TombstonesFirst(s) && ReturnsGone(s) && Enabled(s, step)
    ensures ReturnsGone(Apply(true, s, step))
  {
    var after := Apply(true, s, step);
    forall t | t in after.threads && after.threads[t].Idle? && after.threads[t].last.Gone?
      ensures IsGone(after, after.threads[t].last.k)
    {
      if t == step.thread {
        GoneOnReturn(s, step, after.threads[t].last.k);
      } else {
        GoneStays(s, step, after.threads[t].last.k);
      }
    }
  }

  lemma {:induction false} RunsReturnGone(run: seq<Step>)
    requires IsRun(true, run)
    ensures ReturnsGone(After(true, run))
  {
    if run != [] {
      RunsReturnGone(run[..|run| - 1]);
      RunsKeepInv(run[..|run| - 1]);
      StepKeepsReturnsGone(After(true, run[..|run| - 1]), run[|run| - 1]);
    }
  }

  lemma {:induction false} StaysGone(run: seq<Step>, n: nat, k: Key)
    requires IsRun(true, run) && n <= |run| && IsRun(true, run[..n]) && IsGone(After(true, run[..n]), k)
    ensures IsGone(After(true, run), k)
  {
    if n < |run| {
      assert run[..|run| - 1][..n] == run[..n];
      StaysGone(run[..|run| - 1], n, k);
      GoneStays(After(true, run[..|run| - 1]), run[|run| - 1], k);
    } else {
      assert run[..n] == run;
    }
  }

  /** At step n of the run a deletion of k has returned. */
  predicate Returned(keeps: bool, run: seq<Step>, n: nat, t: Thread, k: Key)
    requires IsRun(keeps, run)
  {
    n <= |run| && IsRun(keeps, run[..n]) && PcOf(After(keeps, run[..n]), t) == Idle(Gone(k))
  }

  /** In every interleaving, a file system whose deletion has returned is tombstoned and neither
      cached nor about to be, then and ever after. */
  ghost predicate DeletedStaysGone(keeps: bool) {
    forall run, n, t, k :: IsRun(keeps, run) && Returned(keeps, run, n, t, k) ==> IsGone(After(keeps, run), k)
  }

  // ---------------------------------------------------------------- exactly when

  lemma {:induction false} Extend(run: seq<Step>, step: Step, s: State) returns (longer: seq<Step>)
    requires IsRun(false, run) && Enabled(After(false, run), step) && Apply(false, After(false, run), step) == s
    ensures IsRun(false, longer) && After(false, longer) == s && longer == run + [step]
  {
    longer := run + [step];
    assert longer[..|run|] == run;
  }

  /** A registration finds no entry; a tombstone is applied and the call returns; the import
      then makes the entry live. */
  lemma RevivedByImport() returns (run: seq<Step>)
    ensures IsRun(false, run) && Returned(false, run, 3, 1, 7) && Live(After(false, run), 7)
  {
    var found := State(map[], {}, None, map[0 := Importing(7)]);
    var applied := State(map[7 := true], {}, None, map[0 := Importing(7), 1 := Applied(7)]);
    var returned := State(map[7 := true], {}, None, map[0 := Importing(7), 1 := Idle(Gone(7))]);
    run := Extend([], Step(0, Snapshot(7)), found);
    run := Extend(run, Step(1, ApplyTombstone(7)), applied);
    var deleted := Extend(run, Step(1, DropTombstoned), returned);
    run := Extend(deleted, Step(0, Import(true)), returned.(entries := map[7 := false],
                                                            threads := returned.threads[0 := Idle(Registered(7))]));
    assert run[..3] == deleted;
  }

  /** Deleted file systems stay gone in every interleaving exactly when an import keeps the
      tombstones it meets. */
  lemma DeletedStaysGoneIff(keeps: bool)
    ensures DeletedStaysGone(keeps) <==> keeps
  {
    if keeps {
      forall run, n, t, k | IsRun(true, run) && Returned(true, run, n, t, k) ensures IsGone(After(true, run), k) {
        RunsReturnGone(run[..n]);
        StaysGone(run, n, k);
      }
    } else {
      var run := RevivedByImport();
      assert IsRun(keeps, run) && Returned(keeps, run, 3, 1, 7) && !IsGone(After(keeps, run), 7);
    }
  }

  // ---------------------------------------------------------------- undisturbed calls

  predicate Ready(s: State, t: Thread) {
    s.lock == None && PcOf(s, t).Idle?
  }

  /** Thread t alone, action after action. */
  function Did(keeps: bool, s: State, t: Thread, actions: seq<Action>): Option<State>
    decreases |actions|
  {
    if actions == [] then Some(s)
    else if !Enabled(s, Step(t, actions[0])) then None
    else Did(keeps, Apply(keeps, s, Step(t, actions[0])), t, actions[1..])
  }

  lemma DidOne(keeps: bool, s: State, t: Thread, a: Action)
    requires Enabled(s, Step(t, a))
    ensures Did(keeps, s, t, [a]) == Some(Apply(keeps, s, Step(t, a)))
  {
    assert [a][1..] == [];
  }

  lemma DidMore(keeps: bool, s: State, t: Thread, a: Action, more: seq<Action>)
    requires Enabled(s, Step(t, a))
    ensures Did(keeps, s, t, [a] + more) == Did(keeps, Apply(keeps, s, Step(t, a)), t, more)
  {
    assert ([a] + more)[1..] == more;
  }

  /** Opening hands out a cached file system as it is, opens and caches a live one, and fails for
      any other. */
  lemma OpeningWorks(keeps: bool, s: State, t: Thread, k: Key) returns (actions: seq<Action>, v: State)
    requires Ready(s, t)
    ensures actions != [] && actions[0] == LockToOpen(k) && Did(keeps, s, t, actions) == Some(v)
    ensures Ready(v, t) && v.entries == s.entries
    ensures v.cached == if k !in s.cached && Live(s, k) then s.cached + {k} else s.cached
    ensures PcOf(v, t) == Idle(if k in s.cached || Live(s, k) then Got(k) else Failed)
    ensures forall u :: u != t ==> PcOf(v, u) == PcOf(s, u)
  {
    var a := Apply(keeps, s, Step(t, LockToOpen(k)));
    if k in s.cached {
      actions, v := [LockToOpen(k)], a;
      DidOne(keeps, s, t, LockToOpen(k));
    } else {
      var b := Apply(keeps, a, Step(t, OpenFileSystem(true)));
      var more := [OpenFileSystem(true)];
      v := b;
      if Live(s, k) {
        v := Apply(keeps, b, Step(t, Insert(true)));
        more := [OpenFileSystem(true)] + [Insert(true)];
        DidOne(keeps, b, t, Insert(true));
        DidMore(keeps, a, t, OpenFileSystem(true), [Insert(true)]);
      } else {
        DidOne(keeps, a, t, OpenFileSystem(true));
      }
      DidMore(keeps, s, t, LockToOpen(k), more);
      actions := [LockToOpen(k)] + more;
    }
  }

  /** Deleting a live file system leaves it gone; deleting any other changes nothing. */
  lemma DeletingWorks(keeps: bool, s: State, t: Thread, k: Key) returns (actions: seq<Action>, v: State)
    requires Ready(s, t)
    ensures actions != [] && actions[0] == LockToDelete(k) && Did(keeps, s, t, actions) == Some(v) && Ready(v, t)
    ensures if Live(s, k) then v.entries == s.entries[k := true] && v.cached == s.cached - {k} &&
                               PcOf(v, t) == Idle(Gone(k))
            else v.entries == s.entries && v.cached == s.cached && PcOf(v, t) == Idle(Failed)
    ensures forall u :: u != t ==> PcOf(v, u) == PcOf(s, u)
  {
    v := Apply(keeps, s, Step(t, LockToDelete(k)));
    actions := [LockToDelete(k)];
    if Live(s, k) {
      DidOne(keeps, v, t, DropDeleted);
      DidMore(keeps, s, t, LockToDelete(k), [DropDeleted]);
      v, actions := Apply(keeps, v, Step(t, DropDeleted)), actions + [DropDeleted];
    } else {
      DidOne(keeps, s, t, LockToDelete(k));
    }
  }

  /** Applying a tombstone leaves any file system gone. */
  lemma ApplyingWorks(keeps: bool, s: State, t: Thread, k: Key) returns (v: State)
    requires Ready(s, t)
    ensures Did(keeps, s, t, [ApplyTombstone(k)] + [DropTombstoned]) == Some(v) && Ready(v, t)
    ensures v.entries == s.entries[k := true] && v.cached == s.cached - {k} && PcOf(v, t) == Idle(Gone(k))
    ensures forall u :: u != t ==> PcOf(v, u) == PcOf(s, u)
  {
    var a := Apply(keeps, s, Step(t, ApplyTombstone(k)));
    DidOne(keeps, a, t, DropTombstoned);
    DidMore(keeps, s, t, ApplyTombstone(k), [DropTombstoned]);
    v := Apply(keeps, a, Step(t, DropTombstoned));
  }

  /** Registering makes an unknown file system live, leaves a live one, and refuses a tombstone. */
  lemma RegisteringWorks(keeps: bool, s: State, t: Thread, k: Key) returns (actions: seq<Action>, v: State)
    requires Ready(s, t)
    ensures actions != [] && actions[0] == Snapshot(k) && Did(keeps, s, t, actions) == Some(v)
    ensures Ready(v, t) && v.cached == s.cached
    ensures v.entries == if k in s.entries then s.entries else s.entries[k := false]
    ensures PcOf(v, t) == Idle(if Tombstoned(s, k) then Failed else Registered(k))
    ensures forall u :: u != t ==> PcOf(v, u) == PcOf(s, u)
  {
    v := Apply(keeps, s, Step(t, Snapshot(k)));
    actions := [Snapshot(k)];
    if k !in s.entries {
      DidOne(keeps, v, t, Import(true));
      DidMore(keeps, s, t, Snapshot(k), [Import(true)]);
      v, actions := Apply(keeps, v, Step(t, Import(true))), actions + [Import(true)];
    } else {
      DidOne(keeps, s, t, Snapshot(k));
    }
  }
}
