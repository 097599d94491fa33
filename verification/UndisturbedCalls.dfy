/** The calls of RuntimeInterleavings when no other thread moves: each of them can always go on
    until it returns, gives back its locks, answers what it should and does what RuntimeCalls
    says. */
module UndisturbedCalls {
  import opened Text
  import C = RuntimeCalls
  import opened RuntimeInterleavings

  /** What is outside the runtime's control: the generated key, and whether the catalog call, the
      engine and the rollback's catalog call work. */
  datatype Luck = Luck(minted: Key, catalog: bool, engine: bool, rollback: bool)

  function OkAt(pc: Pc, luck: Luck): bool {
    match pc
    case OpenCatalog(_) => luck.catalog
    case KvCatalog(_) => luck.catalog
    case OpenReady(_, _) => luck.engine
    case KvReady(_) => luck.engine
    case RollbackCatalog(_) => luck.rollback
    case _ => true
  }

  function NextOf(s: State, t: Thread, luck: Luck): Action {
    if Wants(At(s, t)).Some? then Acquire(t) else Run(t, luck.minted, OkAt(At(s, t), luck))
  }

  /** Thread t alone, for at most n actions or until its call returns. */
  function Solo(s: State, t: Thread, luck: Luck, n: nat): State
    decreases n
  {
    if n == 0 || At(s, t).Idle? then s else Solo(Apply(s, NextOf(s, t, luck)), t, luck, n - 1)
  }

  predicate Goes(faulty: set<Key>, s: State, t: Thread, luck: Luck, n: nat)
    decreases n
  {
    n == 0 || At(s, t).Idle? ||
    (Enabled(faulty, s, NextOf(s, t, luck)) && Goes(faulty, Apply(s, NextOf(s, t, luck)), t, luck, n - 1))
  }

  /** No lock is held, and the thread has no call in progress. */
  predicate Ready(s: State, t: Thread) {
    s.openLock == None && s.kvLock == None && s.catalogLock == None && At(s, t).Idle?
  }

  ghost function ViewOf(s: State): C.View<Key> {
    C.View(iset k | k in s.open, iset k | k in s.kv, iset k | Live(s, k), iset k | Tomb(s, k))
  }

  /** The generated key is new, and only faulty engines fail to open after a creation. */
  predicate Possible(faulty: set<Key>, s: State, op: Op, luck: Luck) {
    op.Create? ==> luck.minted !in s.catalog && (luck.engine || luck.minted in faulty)
  }

  ghost function Expected(s: State, op: Op, luck: Luck): C.View<Key> {
    var v := ViewOf(s);
    if op.Query? || !luck.catalog then v
    else match op
      case Create => C.Created(v, luck.minted, luck.engine, luck.rollback)
      case Delete(k) => C.Deleted(v, k)
      case ApplyTombstone(k) => C.Buried(v, k)
      case Open(k) => C.Opened(v, k, luck.engine)
      case OpenSelected(k) => C.SelectedOpened(v, k, luck.engine)
      case OpenKvSelected(k) => C.KvOpened(v, k, luck.engine)
  }

  function Answer(s: State, op: Op, luck: Luck): Outcome {
    if op.Query? then Answered
    else if !luck.catalog then Failed
    else match op
      case Create => if luck.engine then Handle(luck.minted) else Failed
      case Delete(k) => WasDeleted(k, Live(s, k))
      case ApplyTombstone(k) => TombstoneTaken(k)
      case Open(k) => if !Live(s, k) then Absent else if k in s.open || luck.engine then Handle(k) else Failed
      case OpenSelected(k) => if Tomb(s, k) then Absent else if k in s.open || luck.engine then Handle(k) else Failed
      case OpenKvSelected(k) => if Tomb(s, k) then Absent else if k in s.kv || luck.engine then Handle(k) else Failed
  }

  /** The thread has returned with the answer, the locks are free, the other threads are where they
      were, and caches and catalog are as expected. */
  ghost predicate Returns(s: State, t: Thread, op: Op, luck: Luck, v: State) {
    && Ready(v, t) && At(v, t) == Idle(Some(Answer(s, op, luck)))
    && (forall u :: u != t ==> At(v, u) == At(s, u))
    && ViewOf(v) == Expected(s, op, luck)
  }

  // ---------------------------------------------------------------- one thread at a time

  /** The state in which t is where the effect says and holds only the locks of that place. */
  function With(s: State, t: Thread, e: Effect): State {
    State(e.open, e.kv, e.catalog, Held(OpenLock, t, e.pc), Held(KvLock, t, e.pc), Held(CatalogLock, t, e.pc),
          s.pcs[t := e.pc])
  }

  function Held(l: Lock, t: Thread, pc: Pc): Option<Thread> {
    if l in Holds(pc) then Some(t) else None
  }

  function NextEffect(s: State, t: Thread, luck: Luck, e: Effect): Effect {
    if Wants(e.pc).Some? then e.(pc := Acquired(e.pc))
    else RunFrom(With(s, t, e), e.pc, luck.minted, OkAt(e.pc, luck))
  }

  predicate MayRun(faulty: set<Key>, e: Effect, luck: Luck) {
    && (e.pc.OpenCatalog? && e.pc.op.Create? && luck.catalog ==> luck.minted !in e.catalog)
    && (e.pc.OpenReady? && e.pc.op.Create? && !luck.engine ==> e.pc.key in faulty)
  }

  lemma StartsWith(s: State, t: Thread, op: Op)
    requires Ready(s, t)
    ensures Apply(s, Start(t, op)) == With(s, t, Stay(s, Begin(op)))
  {
  }

  lemma MovesWith(s: State, t: Thread, e: Effect, pc: Pc)
    ensures Move(With(s, t, e), t, pc) == With(s, t, e.(pc := pc))
  {
    assert s.pcs[t := e.pc][t := pc] == s.pcs[t := pc];
  }

  lemma WantsFree(pc: Pc)
    ensures Wants(pc).Some? ==> Wants(pc).value !in Holds(pc)
  {
  }

  lemma Advance(faulty: set<Key>, s: State, t: Thread, luck: Luck, e: Effect, n: nat)
    requires !e.pc.Idle? && MayRun(faulty, e, luck)
    ensures var next := With(s, t, NextEffect(s, t, luck, e));
            && Solo(With(s, t, e), t, luck, n + 1) == Solo(next, t, luck, n)
            && (Goes(faulty, next, t, luck, n) ==> Goes(faulty, With(s, t, e), t, luck, n + 1))
  {
    var x := With(s, t, e);
    assert At(x, t) == e.pc;
    WantsFree(e.pc);
    MovesWith(s, t, e, NextEffect(s, t, luck, e).pc);
    assert Apply(x, NextOf(x, t, luck)) == With(s, t, NextEffect(s, t, luck, e));
    assert Enabled(faulty, x, NextOf(x, t, luck));
  }

  /** One action leads from the one effect to the other. */
  predicate Leads(faulty: set<Key>, s: State, t: Thread, luck: Luck, e: Effect, next: Effect) {
    !e.pc.Idle? && MayRun(faulty, e, luck) && NextEffect(s, t, luck, e) == next
  }

  predicate IsPath(faulty: set<Key>, s: State, t: Thread, luck: Luck, es: seq<Effect>) {
    |es| > 0 && forall i, j :: 0 <= i < |es| && 0 <= j < |es| && j == i + 1 ==> Leads(faulty, s, t, luck, es[i], es[j])
  }

  lemma {:induction false} Follow(faulty: set<Key>, s: State, t: Thread, luck: Luck, es: seq<Effect>, n: nat)
    requires IsPath(faulty, s, t, luck, es) && es[|es| - 1].pc.Idle? && |es| <= n + 1
    ensures Solo(With(s, t, es[0]), t, luck, n) == With(s, t, es[|es| - 1])
    ensures Goes(faulty, With(s, t, es[0]), t, luck, n)
    decreases n
  {
    if |es| > 1 {
      assert Leads(faulty, s, t, luck, es[0], es[1]);
      Advance(faulty, s, t, luck, es[0], n - 1);
      Follow(faulty, s, t, luck, es[1..], n - 1);
    }
  }

  lemma Longer(faulty: set<Key>, s: State, t: Thread, luck: Luck, es: seq<Effect>, e: Effect)
    returns (more: seq<Effect>)
    requires IsPath(faulty, s, t, luck, es) && Leads(faulty, s, t, luck, es[|es| - 1], e)
    ensures IsPath(faulty, s, t, luck, more) && |more| == |es| + 1 && more[0] == es[0] && more[|es|] == e
  {
    more := es + [e];
  }

  predicate UsesOpen(op: Op) {
    !op.OpenKvSelected? && !op.Query?
  }

  /** A call under `open` gets past its catalog call. */
  lemma PastCatalog(faulty: set<Key>, s: State, t: Thread, op: Op, luck: Luck) returns (es: seq<Effect>)
    requires UsesOpen(op) && Possible(faulty, s, op, luck)
    ensures IsPath(faulty, s, t, luck, es) && |es| == 4 && es[0] == Stay(s, Begin(op))
    ensures es[3] == UnderOpen(s, op, luck.minted, luck.catalog)
  {
    es := [Stay(s, WantOpen(op))];
    es := Longer(faulty, s, t, luck, es, Stay(s, OpenHeld(op)));
    es := Longer(faulty, s, t, luck, es, Stay(s, OpenCatalog(op)));
    AtCatalog(s, t, op, luck);
    es := Longer(faulty, s, t, luck, es, UnderOpen(s, op, luck.minted, luck.catalog));
  }

  lemma AtCatalog(s: State, t: Thread, op: Op, luck: Luck)
    ensures NextEffect(s, t, luck, Stay(s, OpenCatalog(op))) == UnderOpen(s, op, luck.minted, luck.catalog)
  {
  }

  lemma EvictionLeads(faulty: set<Key>, s: State, t: Thread, luck: Luck, op: Op, k: Key, c: map<Key, bool>)
    requires Evicts(op)
    ensures Leads(faulty, s, t, luck, Effect(OpenReady(op, k), s.open, s.kv, c),
                  Effect(EvictWantKv(op, k), s.open - {k}, s.kv, c))
    ensures Leads(faulty, s, t, luck, Effect(EvictWantKv(op, k), s.open - {k}, s.kv, c),
                  Effect(EvictKv(op, k), s.open - {k}, s.kv, c))
    ensures Leads(faulty, s, t, luck, Effect(EvictKv(op, k), s.open - {k}, s.kv, c),
                  Effect(Leaving(if op.Delete? then WasDeleted(k, true) else TombstoneTaken(k)),
                         s.open - {k}, s.kv - {k}, c))
  {
  }

  lemma LeavingLeads(faulty: set<Key>, s: State, t: Thread, luck: Luck, e: Effect)
    requires e.pc.Leaving?
    ensures Leads(faulty, s, t, luck, e, e.(pc := Idle(Some(e.pc.outcome))))
  {
  }

  /** From the tombstone to the return. */
  lemma EvictionPath(faulty: set<Key>, s: State, t: Thread, luck: Luck, op: Op, k: Key, c: map<Key, bool>,
                     before: seq<Effect>) returns (es: seq<Effect>)
    requires Evicts(op) && IsPath(faulty, s, t, luck, before)
    requires before[|before| - 1] == Effect(OpenReady(op, k), s.open, s.kv, c)
    ensures IsPath(faulty, s, t, luck, es) && |es| == |before| + 4 && es[0] == before[0]
    ensures es[|es| - 1] == Effect(Idle(Some(if op.Delete? then WasDeleted(k, true) else TombstoneTaken(k))),
                                   s.open - {k}, s.kv - {k}, c)
  {
    var done := if op.Delete? then WasDeleted(k, true) else TombstoneTaken(k);
    var last := Effect(Leaving(done), s.open - {k}, s.kv - {k}, c);
    EvictionLeads(faulty, s, t, luck, op, k, c);
    LeavingLeads(faulty, s, t, luck, last);
    es := Longer(faulty, s, t, luck, before, Effect(EvictWantKv(op, k), s.open - {k}, s.kv, c));
    es := Longer(faulty, s, t, luck, es, Effect(EvictKv(op, k), s.open - {k}, s.kv, c));
    es := Longer(faulty, s, t, luck, es, last);
    es := Longer(faulty, s, t, luck, es, last.(pc := Idle(Some(last.pc.outcome))));
  }

  lemma OpeningLeads(faulty: set<Key>, s: State, t: Thread, luck: Luck, op: Op, k: Key, c: map<Key, bool>)
    requires op.Open? || op.OpenSelected? || (op.Create? && luck.engine)
    ensures Leads(faulty, s, t, luck, Effect(OpenReady(op, k), s.open, s.kv, c),
                  if luck.engine || k in s.open then Effect(Leaving(Handle(k)), s.open + {k}, s.kv, c)
                  else Effect(Leaving(Failed), s.open, s.kv, c))
  {
  }

  lemma OpeningPath(faulty: set<Key>, s: State, t: Thread, luck: Luck, op: Op, k: Key, c: map<Key, bool>,
                    before: seq<Effect>) returns (es: seq<Effect>)
    requires op.Open? || op.OpenSelected? || (op.Create? && luck.engine)
    requires IsPath(faulty, s, t, luck, before)
    requires before[|before| - 1] == Effect(OpenReady(op, k), s.open, s.kv, c)
    ensures IsPath(faulty, s, t, luck, es) && |es| == |before| + 2 && es[0] == before[0]
    ensures es[|es| - 1] == if luck.engine || k in s.open then Effect(Idle(Some(Handle(k))), s.open + {k}, s.kv, c)
                            else Effect(Idle(Some(Failed)), s.open, s.kv, c)
  {
    var last := if luck.engine || k in s.open then Effect(Leaving(Handle(k)), s.open + {k}, s.kv, c)
                else Effect(Leaving(Failed), s.open, s.kv, c);
    OpeningLeads(faulty, s, t, luck, op, k, c);
    LeavingLeads(faulty, s, t, luck, last);
    es := Longer(faulty, s, t, luck, before, last);
    es := Longer(faulty, s, t, luck, es, last.(pc := Idle(Some(last.pc.outcome))));
  }

  lemma RollbackLeads(faulty: set<Key>, s: State, t: Thread, luck: Luck, k: Key, c: map<Key, bool>)
    requires !luck.engine && k in faulty && k in c && !c[k]
    ensures Leads(faulty, s, t, luck, Effect(OpenReady(Create, k), s.open, s.kv, c),
                  Effect(RollbackWant(k), s.open, s.kv, c))
    ensures Leads(faulty, s, t, luck, Effect(RollbackWant(k), s.open, s.kv, c),
                  Effect(RollbackCatalog(k), s.open, s.kv, c))
    ensures Leads(faulty, s, t, luck, Effect(RollbackCatalog(k), s.open, s.kv, c),
                  Effect(Leaving(Failed), s.open, s.kv, if luck.rollback then c[k := true] else c))
  {
  }

  lemma RollbackPath(faulty: set<Key>, s: State, t: Thread, luck: Luck, k: Key, c: map<Key, bool>, before: seq<Effect>)
    returns (es: seq<Effect>)
    requires !luck.engine && k in faulty && k in c && !c[k] && IsPath(faulty, s, t, luck, before)
    requires before[|before| - 1] == Effect(OpenReady(Create, k), s.open, s.kv, c)
    ensures IsPath(faulty, s, t, luck, es) && |es| == |before| + 4 && es[0] == before[0]
    ensures es[|es| - 1] == Effect(Idle(Some(Failed)), s.open, s.kv, if luck.rollback then c[k := true] else c)
  {
    var last := Effect(Leaving(Failed), s.open, s.kv, if luck.rollback then c[k := true] else c);
    RollbackLeads(faulty, s, t, luck, k, c);
    LeavingLeads(faulty, s, t, luck, last);
    es := Longer(faulty, s, t, luck, before, Effect(RollbackWant(k), s.open, s.kv, c));
    es := Longer(faulty, s, t, luck, es, Effect(RollbackCatalog(k), s.open, s.kv, c));
    es := Longer(faulty, s, t, luck, es, last);
    es := Longer(faulty, s, t, luck, es, last.(pc := Idle(Some(Failed))));
  }

  // ---------------------------------------------------------------- the calls

  /** The call, from its start to its return. */
  function Call(s: State, t: Thread, op: Op, luck: Luck): State {
    Solo(Apply(s, Start(t, op)), t, luck, 7)
  }

  /** The effect of a whole call. */
  function Whole(s: State, op: Op, luck: Luck): Effect {
    var answer := Idle(Some(Answer(s, op, luck)));
    if op.Query? || !luck.catalog then Stay(s, answer)
    else match op
      case Create =>
        var k := luck.minted;
        if luck.engine then Effect(answer, s.open + {k}, s.kv, s.catalog[k := false])
        else Effect(answer, s.open, s.kv,
                    if luck.rollback then s.catalog[k := false][k := true] else s.catalog[k := false])
      case Delete(k) =>
        if Live(s, k) then Effect(answer, s.open - {k}, s.kv - {k}, s.catalog[k := true]) else Stay(s, answer)
      case ApplyTombstone(k) => Effect(answer, s.open - {k}, s.kv - {k}, s.catalog[k := true])
      case Open(k) =>
        if Live(s, k) && (k in s.open || luck.engine) then Effect(answer, s.open + {k}, s.kv, s.catalog)
        else Stay(s, answer)
      case OpenSelected(k) =>
        if Tomb(s, k) then Stay(s, answer)
        else if k in s.open || luck.engine then Effect(answer, s.open + {k}, s.kv, s.catalog[k := false])
        else Effect(answer, s.open, s.kv, s.catalog[k := false])
      case OpenKvSelected(k) =>
        if Tomb(s, k) then Stay(s, answer)
        else if k in s.kv || luck.engine then Effect(answer, s.open, s.kv + {k}, s.catalog[k := false])
        else Effect(answer, s.open, s.kv, s.catalog[k := false])
  }

  /** The call's way from its start to its return. */
  ghost predicate IsCall(faulty: set<Key>, s: State, t: Thread, op: Op, luck: Luck, es: seq<Effect>) {
    && IsPath(faulty, s, t, luck, es) && |es| <= 8
    && es[0] == Stay(s, Begin(op)) && es[|es| - 1] == Whole(s, op, luck)
  }

  lemma OpenCall(faulty: set<Key>, s: State, t: Thread, op: Op, luck: Luck) returns (es: seq<Effect>)
    requires UsesOpen(op) && Possible(faulty, s, op, luck)
    ensures IsCall(faulty, s, t, op, luck, es)
  {
    var e := UnderOpen(s, op, luck.minted, luck.catalog);
    es := PastCatalog(faulty, s, t, op, luck);
    if e.pc.Leaving? {
      LeavingLeads(faulty, s, t, luck, e);
      es := Longer(faulty, s, t, luck, es, e.(pc := Idle(Some(e.pc.outcome))));
    } else if Evicts(op) {
      es := EvictionPath(faulty, s, t, luck, op, op.key, e.catalog, es);
    } else if op.Create? && !luck.engine {
      es := RollbackPath(faulty, s, t, luck, luck.minted, e.catalog, es);
    } else {
      es := OpeningPath(faulty, s, t, luck, op, if op.Create? then luck.minted else op.key, e.catalog, es);
    }
  }

  lemma KvLeads(faulty: set<Key>, s: State, t: Thread, luck: Luck, k: Key)
    ensures Leads(faulty, s, t, luck, Stay(s, WantKv(k)), Stay(s, KvHeld(k)))
    ensures Leads(faulty, s, t, luck, Stay(s, KvHeld(k)), Stay(s, KvCatalog(k)))
    ensures Leads(faulty, s, t, luck, Stay(s, KvCatalog(k)),
                  if luck.catalog && !Tomb(s, k) then Effect(KvReady(k), s.open, s.kv, s.catalog[k := false])
                  else Stay(s, Idle(Some(if luck.catalog then Absent else Failed))))
    ensures Leads(faulty, s, t, luck, Effect(KvReady(k), s.open, s.kv, s.catalog[k := false]),
                  if k in s.kv || luck.engine then
                    Effect(Idle(Some(Handle(k))), s.open, s.kv + {k}, s.catalog[k := false])
                  else Effect(Idle(Some(Failed)), s.open, s.kv, s.catalog[k := false]))
  {
  }

  lemma KvCall(faulty: set<Key>, s: State, t: Thread, k: Key, luck: Luck) returns (es: seq<Effect>)
    ensures IsCall(faulty, s, t, OpenKvSelected(k), luck, es)
  {
    KvLeads(faulty, s, t, luck, k);
    es := [Stay(s, WantKv(k))];
    es := Longer(faulty, s, t, luck, es, Stay(s, KvHeld(k)));
    es := Longer(faulty, s, t, luck, es, Stay(s, KvCatalog(k)));
    if luck.catalog && !Tomb(s, k) {
      es := Longer(faulty, s, t, luck, es, Effect(KvReady(k), s.open, s.kv, s.catalog[k := false]));
    }
    es := Longer(faulty, s, t, luck, es, Whole(s, OpenKvSelected(k), luck));
  }

  lemma QueryCall(faulty: set<Key>, s: State, t: Thread, luck: Luck) returns (es: seq<Effect>)
    ensures IsCall(faulty, s, t, Query, luck, es)
  {
    es := [Stay(s, WantCatalog)];
    es := Longer(faulty, s, t, luck, es, Stay(s, CatalogHeld));
    es := Longer(faulty, s, t, luck, es, Stay(s, Idle(Some(Answered))));
  }

  /** In terms of what can be seen of the runtime. */
  lemma WholeIsExpected(s: State, t: Thread, op: Op, luck: Luck)
    requires op.Create? ==> luck.minted !in s.catalog
    ensures ViewOf(With(s, t, Whole(s, op, luck))) == Expected(s, op, luck)
  {
  }

  lemma WholeReturns(s: State, t: Thread, op: Op, luck: Luck)
    requires Ready(s, t) && (op.Create? ==> luck.minted !in s.catalog)
    ensures Returns(s, t, op, luck, With(s, t, Whole(s, op, luck)))
  {
    WholeIsExpected(s, t, op, luck);
  }

  lemma SomeCall(faulty: set<Key>, s: State, t: Thread, op: Op, luck: Luck) returns (es: seq<Effect>)
    requires Possible(faulty, s, op, luck)
    ensures IsCall(faulty, s, t, op, luck, es)
  {
    if UsesOpen(op) {
      es := OpenCall(faulty, s, t, op, luck);
    } else if op.Query? {
      es := QueryCall(faulty, s, t, luck);
    } else {
      es := KvCall(faulty, s, t, op.key, luck);
    }
  }

  /** Every call, from every state in which its thread is idle and the locks are free, goes on
      without waiting, returns within eight actions with the right answer, leaves the locks free and
      the other threads alone, and does to caches and catalog exactly what the call is for. */
  lemma CallsReturn(faulty: set<Key>, s: State, t: Thread, op: Op, luck: Luck)
    requires Ready(s, t) && Possible(faulty, s, op, luck)
    ensures Enabled(faulty, s, Start(t, op)) && Goes(faulty, Apply(s, Start(t, op)), t, luck, 7)
    ensures Returns(s, t, op, luck, Call(s, t, op, luck))
  {
    var es := SomeCall(faulty, s, t, op, luck);
    StartsWith(s, t, op);
    Follow(faulty, s, t, luck, es, 7);
    WholeReturns(s, t, op, luck);
  }

  lemma {:induction false} Append(faulty: set<Key>, run: seq<Action>, a: Action)
    requires IsRun(faulty, run) && Enabled(faulty, After(run), a)
    ensures IsRun(faulty, run + [a]) && After(run + [a]) == Apply(After(run), a)
  {
    assert (run + [a])[..|run|] == run;
  }

  /** The actions lead from the one state to the other. */
  predicate Connects(faulty: set<Key>, s: State, actions: seq<Action>, v: State)
    decreases |actions|
  {
    if actions == [] then s == v
    else Enabled(faulty, s, actions[0]) && Connects(faulty, Apply(s, actions[0]), actions[1..], v)
  }

  lemma Prepend(faulty: set<Key>, s: State, a: Action, actions: seq<Action>, v: State)
    requires Enabled(faulty, s, a) && Connects(faulty, Apply(s, a), actions, v)
    ensures Connects(faulty, s, [a] + actions, v)
  {
    assert ([a] + actions)[1..] == actions;
  }

  lemma {:induction false} SoloLeads(faulty: set<Key>, s: State, t: Thread, luck: Luck, n: nat)
    returns (actions: seq<Action>)
    requires Goes(faulty, s, t, luck, n)
    ensures Connects(faulty, s, actions, Solo(s, t, luck, n))
    decreases n
  {
    actions := [];
    if n > 0 && !At(s, t).Idle? {
      var a := NextOf(s, t, luck);
      var more := SoloLeads(faulty, Apply(s, a), t, luck, n - 1);
      Prepend(faulty, s, a, more, Solo(s, t, luck, n));
      actions := [a] + more;
    }
  }

  lemma {:induction false} LeadsIsRun(faulty: set<Key>, run: seq<Action>, actions: seq<Action>, v: State)
    returns (longer: seq<Action>)
    requires IsRun(faulty, run) && Connects(faulty, After(run), actions, v)
    ensures run <= longer && IsRun(faulty, longer) && After(longer) == v
    decreases |actions|
  {
    longer := run;
    if actions != [] {
      Append(faulty, run, actions[0]);
      longer := LeadsIsRun(faulty, run + [actions[0]], actions[1..], v);
    }
  }

  /** After every run such a call is a run too, so everything that holds of runs holds of it. */
  lemma CallIsRun(faulty: set<Key>, run: seq<Action>, t: Thread, op: Op, luck: Luck) returns (longer: seq<Action>)
    requires IsRun(faulty, run) && Ready(After(run), t) && Possible(faulty, After(run), op, luck)
    ensures run <= longer && IsRun(faulty, longer) && Returns(After(run), t, op, luck, After(longer))
  {
    var s := After(run);
    CallsReturn(faulty, s, t, op, luck);
    var actions := SoloLeads(faulty, Apply(s, Start(t, op)), t, luck, 7);
    Prepend(faulty, s, Start(t, op), actions, Call(s, t, op, luck));
    longer := LeadsIsRun(faulty, run, [Start(t, op)] + actions, Call(s, t, op, luck));
  }
}
