/** Pairwise database synchronization between any number of devices.

    A device is named by the text of its public key. Each device has its own catalog of live
    and tombstoned databases. The control plane's answers (which resources a device has
    selected, which peers it admits) are a policy that may change at any moment. Messages and
    half-finished exchanges are tasks, handled in any order or lost. */
module DatabaseSync {
  import opened Text
  import opened Identifiers
  import StoragePaths

  type Device = string

  /** How the service reads an identifier from text; nothing is assumed about it. */
  type IdParser = string -> Option<Uuid>

  datatype Descriptor = Descriptor(owner: string, application: string, database: string)

  datatype SelectedResource = SelectedResource(owner: string, application: string, kind: string, resource: string)

  /** A database: its namespace and id. */
  datatype Key = Key(owner: string, application: Uuid, database: Uuid)

  datatype Policy = Policy(
    selected: map<Device, seq<SelectedResource>>,      // a missing device: the query fails
    admitted: set<(Device, Device, string, string)>)   // (local, remote, application, database)

  datatype Task =
    | Handshake(initiator: Device, responder: Device, resource: Descriptor, deleted: bool)
    | ResponderKv(initiator: Device, responder: Device, resource: Descriptor)
    | Ack(initiator: Device, responder: Device, resource: Descriptor, deleted: bool)
    | InitiatorKv(initiator: Device, responder: Device, resource: Descriptor)

  datatype HandleTaken = HandleTaken(device: Device, key: Key)

  datatype Cluster = Cluster(
    records: map<(Device, Key), bool>,     // the catalogs of all devices; true: tombstoned
    policy: Policy,
    tasks: multiset<Task>,
    handles: seq<HandleTaken>,             // every handle taken for a data session, in order
    deletions: set<(Device, Key)>)         // every delete call that found a live record

  // ---------------------------------------------------------------- catalog and policy queries

  predicate Tombstoned(s: Cluster, d: Device, k: Key) {
    (d, k) in s.records && s.records[(d, k)]
  }

  predicate Live(s: Cluster, d: Device, k: Key) {
    (d, k) in s.records && !s.records[(d, k)]
  }

  /** `descriptor`. */
  function DescriptorOf(r: SelectedResource): Descriptor {
    Descriptor(r.owner, r.application, r.resource)
  }

  predicate Matches(d: Descriptor, r: SelectedResource) {
    r.owner == d.owner && r.application == d.application && r.kind == "database" && r.resource == d.database
  }

  /** Catalogs and databases refuse any other namespace. */
  predicate Accepted(k: Key) {
    StoragePaths.ValidNamespace(StoragePaths.Namespace(k.owner, k.application))
  }

  /** The database a descriptor names. `None` when an id does not parse or the owner is blank;
      and when storage refuses the namespace, since then an exchange ends on either side before
      anything is written or sent. */
  function KeyOf(ids: IdParser, d: Descriptor): (k: Option<Key>)
    ensures k.Some? ==> Accepted(k.value)
  {
    match (ids(d.application), ids(d.database))
    case (Some(a), Some(b)) =>
      if IsBlank(d.owner) || !Accepted(Key(d.owner, a, b)) then None else Some(Key(d.owner, a, b))
    case _ => None
  }

  /** `authorize`, asked on `local` about an exchange with `remote`. */
  predicate Authorized(ids: IdParser, policy: Policy, local: Device, remote: Device, d: Descriptor) {
    && KeyOf(ids, d).Some?
    && local in policy.selected
    && (exists i :: 0 <= i < |policy.selected[local]| && Matches(d, policy.selected[local][i]))
    && (local, remote, d.application, d.database) in policy.admitted
  }

  // ---------------------------------------------------------------- steps

  datatype Step =
    | Create(d: Device, k: Key, engineOpens: bool)
    | Delete(d: Device, k: Key)
    | SetPolicy(policy: Policy)
    | Initiate(d: Device, peer: Device, resource: Descriptor)
    | Handle(task: Task)
    | Lose(task: Task)

  datatype Record = Record(d: Device, k: Key, deleted: bool)

  /** What a step does besides consuming a task or replacing the policy: it writes at most
      one catalog record, takes at most one handle and sends at most one message. */
  datatype Change = Change(
    write: Option<Record>,
    taken: Option<HandleTaken>,
    sent: Option<Task>,
    deletion: Option<(Device, Key)>)

  const Nothing := Change(None, None, None, None)

  /** New ids are fresh: no catalog has them and none was ever deleted. */
  predicate Enabled(s: Cluster, step: Step) {
    match step
    case Create(d, k, _) =>
      && (forall r :: r in s.records ==> r.1 != k)
      && (forall e :: e in s.deletions ==> e.1 != k)
    case Handle(task) => task in s.tasks
    case Lose(task) => task in s.tasks
    case _ => true
  }

  function ChangeOf(ids: IdParser, s: Cluster, step: Step): Change {
    match step
    case Create(d, k, opens) =>
      if !Accepted(k) then Nothing else
      Change(Some(Record(d, k, !opens)), None, None, if opens then None else Some((d, k)))
    case Delete(d, k) =>
      if Accepted(k) && Live(s, d, k) then Change(Some(Record(d, k, true)), None, None, Some((d, k))) else Nothing
    case Initiate(d, peer, resource) =>
      if !Authorized(ids, s.policy, d, peer, resource) then Nothing
      else
        var deleted := Tombstoned(s, d, KeyOf(ids, resource).value);
        Change(None, None, Some(Handshake(d, peer, resource, deleted)), None)
    case Handle(task) =>
      (match KeyOf(ids, task.resource)
       case None => Nothing
       case Some(k) => HandlingOf(ids, s, task, k))
    case _ => Nothing
  }

  /** `accept_stream` and the part of `synchronize_peer` after the handshake. */
  function HandlingOf(ids: IdParser, s: Cluster, task: Task, k: Key): Change {
    match task
    case Handshake(d, p, resource, deleted) =>
      if !Authorized(ids, s.policy, p, d, resource) then Nothing
      else if deleted then Change(Some(Record(p, k, true)), None, Some(Ack(d, p, resource, true)), None)
      else TakeHandle(s, p, k, true, Some(ResponderKv(d, p, resource)))
    case ResponderKv(d, p, resource) => TakeHandle(s, p, k, true, Some(Ack(d, p, resource, false)))
    case Ack(d, p, resource, deleted) =>
      if deleted then Nothing else TakeHandle(s, d, k, false, Some(InitiatorKv(d, p, resource)))
    case InitiatorKv(d, p, resource) => TakeHandle(s, d, k, true, None)
  }

  /** A handle for a data session. `register` is `open_selected` and `open_kv_selected`,
      which add an unknown id to the catalog; otherwise `open`, which wants it there. */
  function TakeHandle(s: Cluster, d: Device, k: Key, register: bool, next: Option<Task>): Change {
    if Tombstoned(s, d, k) || (!register && !Live(s, d, k)) then Nothing
    else Change(Some(Record(d, k, false)), Some(HandleTaken(d, k)), next, None)
  }

  function Perform(s: Cluster, c: Change): Cluster {
    Cluster(
      if c.write == None then s.records else s.records[(c.write.value.d, c.write.value.k) := c.write.value.deleted],
      s.policy,
      s.tasks + (if c.sent == None then multiset{} else multiset{c.sent.value}),
      s.handles + (if c.taken == None then [] else [c.taken.value]),
      s.deletions + (if c.deletion == None then {} else {c.deletion.value}))
  }

  function Consume(s: Cluster, step: Step): Cluster {
    match step
    case Handle(task) => s.(tasks := s.tasks - multiset{task})
    case Lose(task) => s.(tasks := s.tasks - multiset{task})
    case SetPolicy(policy) => s.(policy := policy)
    case _ => s
  }

  function Apply(ids: IdParser, s: Cluster, step: Step): Cluster {
    Perform(Consume(s, step), ChangeOf(ids, s, step))
  }

  predicate Initial(s: Cluster) {
    s.records == map[] && s.tasks == multiset{} && s.handles == [] && s.deletions == {}
  }

  predicate IsRun(ids: IdParser, init: Cluster, run: seq<Step>) {
    if run == [] then Initial(init)
    else IsRun(ids, init, run[..|run| - 1]) && Enabled(After(ids, init, run[..|run| - 1]), run[|run| - 1])
  }

  function After(ids: IdParser, init: Cluster, run: seq<Step>): Cluster {
    if run == [] then init else Apply(ids, After(ids, init, run[..|run| - 1]), run[|run| - 1])
  }

  // ---------------------------------------------------------------- single steps

  /** What all steps have in common: only a record that is not a tombstone is made or kept
      live; a new tombstone is a deletion here or was announced; a handle goes with a live
      record; and only a tombstone is announced. */
  ghost predicate Sound(ids: IdParser, s: Cluster, step: Step, c: Change) {
    && (c.write.Some? && !c.write.value.deleted ==> !Tombstoned(s, c.write.value.d, c.write.value.k))
    && (c.write.Some? && c.write.value.deleted ==>
          || c.deletion == Some((c.write.value.d, c.write.value.k))
          || (step.Handle? && step.task in s.tasks && step.task.Handshake? && step.task.deleted
              && KeyOf(ids, step.task.resource) == Some(c.write.value.k)))
    && (c.taken.Some? ==> c.write == Some(Record(c.taken.value.device, c.taken.value.key, false)))
    && (c.sent.Some? && c.sent.value.Handshake? && c.sent.value.deleted ==>
          && KeyOf(ids, c.sent.value.resource).Some?
          && Tombstoned(s, c.sent.value.initiator, KeyOf(ids, c.sent.value.resource).value))
  }

  lemma ChangesAreSound(ids: IdParser, s: Cluster, step: Step)
    requires Enabled(s, step)
    ensures Sound(ids, s, step, ChangeOf(ids, s, step))
  {
  }

  function Performed(s: Cluster, step: Step, c: Change): Cluster {
    Perform(Consume(s, step), c)
  }

  lemma SoundKeepsTombstones(ids: IdParser, s: Cluster, step: Step, c: Change, d: Device, k: Key)
    requires Sound(ids, s, step, c) && Tombstoned(s, d, k)
    ensures Tombstoned(Performed(s, step, c), d, k)
    ensures c.taken != Some(HandleTaken(d, k))
  {
  }

  lemma SoundKeepsTraced(ids: IdParser, s: Cluster, step: Step, c: Change)
    requires Sound(ids, s, step, c) && Traced(ids, s)
    ensures Traced(ids, Performed(s, step, c))
  {
    var s' := Performed(s, step, c);
    assert forall k :: WasDeleted(s, k) ==> WasDeleted(s', k);
    forall d, k | Tombstoned(s', d, k) ensures WasDeleted(s', k) {
      if !Tombstoned(s, d, k) {
        assert c.write == Some(Record(d, k, true));
        if c.deletion == Some((d, k)) {
          assert (d, k) in s'.deletions;
        } else {
          assert TracedTask(ids, s, step.task);
        }
      }
    }
    forall t | t in s'.tasks ensures TracedTask(ids, s', t) {
      assert t in s.tasks ==> TracedTask(ids, s, t);
    }
  }

  /** No step removes a tombstone, on any device. */
  lemma TombstonesGrow(ids: IdParser, s: Cluster, step: Step, d: Device, k: Key)
    requires Enabled(s, step) && Tombstoned(s, d, k)
    ensures Tombstoned(Apply(ids, s, step), d, k)
  {
    ChangesAreSound(ids, s, step);
    SoundKeepsTombstones(ids, s, step, ChangeOf(ids, s, step), d, k);
  }

  /** A handle is taken only for a database that is not tombstoned on the device that
      takes it, before or after the step. */
  lemma HandlesAreLive(ids: IdParser, s: Cluster, step: Step, h: HandleTaken)
    requires Enabled(s, step) && ChangeOf(ids, s, step).taken == Some(h)
    ensures Apply(ids, s, step).handles == s.handles + [h]
    ensures !Tombstoned(s, h.device, h.key) && Live(Apply(ids, s, step), h.device, h.key)
  {
    ChangesAreSound(ids, s, step);
  }

  ghost predicate WasDeleted(s: Cluster, k: Key) {
    exists d :: (d, k) in s.deletions
  }

  /** Every tombstone, and every announcement of one, stems from a delete call. */
  ghost predicate Traced(ids: IdParser, s: Cluster) {
    && (forall d, k :: Tombstoned(s, d, k) ==> WasDeleted(s, k))
    && (forall t :: t in s.tasks ==> TracedTask(ids, s, t))
  }

  ghost predicate TracedTask(ids: IdParser, s: Cluster, t: Task) {
    t.Handshake? && t.deleted && KeyOf(ids, t.resource).Some? ==> WasDeleted(s, KeyOf(ids, t.resource).value)
  }

  // ---------------------------------------------------------------- whole runs

  /** In every run each tombstone traces back to a delete call on some device. */
  lemma {:induction false} RunsAreTraced(ids: IdParser, init: Cluster, run: seq<Step>)
    requires IsRun(ids, init, run)
    ensures Traced(ids, After(ids, init, run))
  {
    if run != [] {
      RunsAreTraced(ids, init, run[..|run| - 1]);
      var s, step := After(ids, init, run[..|run| - 1]), run[|run| - 1];
      ChangesAreSound(ids, s, step);
      SoundKeepsTraced(ids, s, step, ChangeOf(ids, s, step));
    }
  }

  lemma LastStep(ids: IdParser, init: Cluster, run: seq<Step>, more: seq<Step>)
    requires more != [] && IsRun(ids, init, run + more)
    ensures var shorter := run + more[..|more| - 1];
            && IsRun(ids, init, shorter) && Enabled(After(ids, init, shorter), more[|more| - 1])
            && After(ids, init, run + more) == Apply(ids, After(ids, init, shorter), more[|more| - 1])
  {
    var whole, shorter := run + more, run + more[..|more| - 1];
    RunEnd(ids, init, whole);
    assert whole[..|whole| - 1] == shorter && whole[|whole| - 1] == more[|more| - 1];
  }

  lemma RunEnd(ids: IdParser, init: Cluster, run: seq<Step>)
    requires run != [] && IsRun(ids, init, run)
    ensures IsRun(ids, init, run[..|run| - 1]) && Enabled(After(ids, init, run[..|run| - 1]), run[|run| - 1])
    ensures After(ids, init, run) == Apply(ids, After(ids, init, run[..|run| - 1]), run[|run| - 1])
  {
  }

  lemma StillTombstoned(ids: IdParser, s: Cluster, step: Step, c: Change, n: nat, d: Device, k: Key)
    requires Sound(ids, s, step, c) && Tombstoned(s, d, k) && n <= |s.handles|
    requires forall i :: n <= i < |s.handles| ==> s.handles[i] != HandleTaken(d, k)
    ensures var s' := Performed(s, step, c);
            && Tombstoned(s', d, k) && s.handles <= s'.handles
            && forall i :: n <= i < |s'.handles| ==> s'.handles[i] != HandleTaken(d, k)
  {
    SoundKeepsTombstones(ids, s, step, c, d, k);
  }

  /** Along every continuation of every run the tombstones of each device only grow, and
      once a device has a tombstone it never again takes a handle for that database. */
  lemma {:induction false} TombstonedForGood(ids: IdParser, init: Cluster, run: seq<Step>, more: seq<Step>, d: Device,
                                             k: Key)
    requires IsRun(ids, init, run + more) && Tombstoned(After(ids, init, run), d, k)
    ensures Tombstoned(After(ids, init, run + more), d, k)
    ensures var before, later := After(ids, init, run).handles, After(ids, init, run + more).handles;
            && before <= later
            && forall i :: |before| <= i < |later| ==> later[i] != HandleTaken(d, k)
    decreases |more|
  {
    if more == [] {
      assert run + more == run;
    } else {
      LastStep(ids, init, run, more);
      TombstonedForGood(ids, init, run, more[..|more| - 1], d, k);
      var s, step := After(ids, init, run + more[..|more| - 1]), more[|more| - 1];
      ChangesAreSound(ids, s, step);
      StillTombstoned(ids, s, step, ChangeOf(ids, s, step), |After(ids, init, run).handles|, d, k);
    }
  }

  /** An announcement that reaches an authorizing peer becomes a tombstone there. */
  lemma AnnouncementArrives(ids: IdParser, s: Cluster, d: Device, p: Device, resource: Descriptor)
    requires Enabled(s, Handle(Handshake(d, p, resource, true))) && Authorized(ids, s.policy, p, d, resource)
    ensures Tombstoned(Apply(ids, s, Handle(Handshake(d, p, resource, true))), p, KeyOf(ids, resource).value)
  {
  }

  /** Whatever happens in between and afterwards: once a device announces a tombstone and
      the announcement is handled by a peer that authorizes it, that peer has the tombstone
      for good. */
  lemma AnnouncedTombstoneStays(ids: IdParser, init: Cluster, run: seq<Step>, more: seq<Step>,
                                d: Device, p: Device, resource: Descriptor)
    requires IsRun(ids, init, run + [Handle(Handshake(d, p, resource, true))] + more)
    requires Authorized(ids, After(ids, init, run).policy, p, d, resource)
    ensures Tombstoned(After(ids, init, run + [Handle(Handshake(d, p, resource, true))] + more),
                       p, KeyOf(ids, resource).value)
  {
    var step := Handle(Handshake(d, p, resource, true));
    RunPrefix(ids, init, run + [step], more);
    RunEnd(ids, init, run + [step]);
    assert (run + [step])[..|run|] == run;
    AnnouncementArrives(ids, After(ids, init, run), d, p, resource);
    TombstonedForGood(ids, init, run + [step], more, p, KeyOf(ids, resource).value);
  }

  lemma {:induction false} RunPrefix(ids: IdParser, init: Cluster, run: seq<Step>, more: seq<Step>)
    requires IsRun(ids, init, run + more)
    ensures IsRun(ids, init, run)
    decreases |more|
  {
    if more == [] {
      assert run + more == run;
    } else {
      LastStep(ids, init, run, more);
      RunPrefix(ids, init, run, more[..|more| - 1]);
    }
  }

  // ---------------------------------------------------------------- a round of synchronization

  /** Which of two devices opens the exchange: the one with the smaller key. */
  predicate Initiates(local: Device, peer: Device) {
    Less(local, peer)
  }

  lemma ExactlyOneInitiates(d: Device, p: Device)
    requires d != p
    ensures Initiates(d, p) <==> !Initiates(p, d)
  {
    LessExactlyOne(d, p);
  }

  /** k was deleted on x or on a device with a smaller key. */
  ghost predicate DeletedUpTo(s: Cluster, x: Device, k: Key) {
    exists d :: (d, k) in s.deletions && (d == x || Less(d, x))
  }

  ghost predicate OneWayTask(ids: IdParser, s: Cluster, t: Task) {
    t.Handshake? ==>
      && Initiates(t.initiator, t.responder)
      && (t.deleted && KeyOf(ids, t.resource).Some? ==> DeletedUpTo(s, t.initiator, KeyOf(ids, t.resource).value))
  }

  ghost predicate OneWay(ids: IdParser, s: Cluster) {
    && (forall x, k :: Tombstoned(s, x, k) ==> DeletedUpTo(s, x, k))
    && (forall t :: t in s.tasks ==> OneWayTask(ids, s, t))
  }

  lemma DeletedUpToPasses(s: Cluster, x: Device, y: Device, k: Key)
    requires DeletedUpTo(s, x, k) && Less(x, y)
    ensures DeletedUpTo(s, y, k)
  {
    var d :| (d, k) in s.deletions && (d == x || Less(d, x));
    if d != x { LessTransitive(d, x, y); }
  }

  /** The step initiates, if at all, from the smaller key, as a synchronization round does. */
  predicate InOrder(step: Step) {
    step.Initiate? ==> Initiates(step.d, step.peer)
  }

  lemma SendsInOrder(ids: IdParser, s: Cluster, step: Step)
    requires Enabled(s, step) && InOrder(step)
    ensures var c := ChangeOf(ids, s, step);
      && (c.sent.Some? && c.sent.value.Handshake? ==> Initiates(c.sent.value.initiator, c.sent.value.responder))
      && (c.write.Some? && c.write.value.deleted && step.Handle? ==> c.write.value.d == step.task.responder)
  {
  }

  lemma {:induction false} DeletedUpToStays(s: Cluster, step: Step, c: Change, x: Device, k: Key)
    requires DeletedUpTo(s, x, k)
    ensures DeletedUpTo(Performed(s, step, c), x, k)
  {
    var d :| (d, k) in s.deletions && (d == x || Less(d, x));
    assert (d, k) in Performed(s, step, c).deletions;
  }

  /** A tombstone that a sound step writes was deleted at or below the device it is written on. */
  lemma {:induction false} WriteIsOneWay(ids: IdParser, s: Cluster, step: Step, c: Change, x: Device, k: Key)
    requires Sound(ids, s, step, c) && OneWay(ids, s) && c.write == Some(Record(x, k, true))
    requires step.Handle? ==> x == step.task.responder
    ensures DeletedUpTo(Performed(s, step, c), x, k)
  {
    if c.deletion == Some((x, k)) {
      assert (x, k) in Performed(s, step, c).deletions;
    } else {
      assert OneWayTask(ids, s, step.task);
      DeletedUpToPasses(s, step.task.initiator, x, k);
      DeletedUpToStays(s, step, c, x, k);
    }
  }

  lemma {:induction false} TombstonesStayOneWay(ids: IdParser, s: Cluster, step: Step, c: Change)
    requires Sound(ids, s, step, c) && OneWay(ids, s)
    requires c.write.Some? && c.write.value.deleted && step.Handle? ==> c.write.value.d == step.task.responder
    ensures var s' := Performed(s, step, c); forall x, k :: Tombstoned(s', x, k) ==> DeletedUpTo(s', x, k)
  {
    var s' := Performed(s, step, c);
    forall x, k | Tombstoned(s', x, k) ensures DeletedUpTo(s', x, k) {
      if Tombstoned(s, x, k) {
        DeletedUpToStays(s, step, c, x, k);
      } else {
        WriteIsOneWay(ids, s, step, c, x, k);
      }
    }
  }

  lemma {:induction false} TasksStayOneWay(ids: IdParser, s: Cluster, step: Step, c: Change)
    requires Sound(ids, s, step, c) && OneWay(ids, s)
    requires c.sent.Some? && c.sent.value.Handshake? ==> Initiates(c.sent.value.initiator, c.sent.value.responder)
    ensures var s' := Performed(s, step, c); forall t :: t in s'.tasks ==> OneWayTask(ids, s', t)
  {
    var s' := Performed(s, step, c);
    assert forall x, k :: DeletedUpTo(s, x, k) ==> DeletedUpTo(s', x, k);
    forall t | t in s'.tasks ensures OneWayTask(ids, s', t) {
      assert t in s.tasks ==> OneWayTask(ids, s, t);
    }
  }

  lemma {:induction false} SoundKeepsOneWay(ids: IdParser, s: Cluster, step: Step, c: Change)
    requires Sound(ids, s, step, c) && OneWay(ids, s)
    requires c.sent.Some? && c.sent.value.Handshake? ==> Initiates(c.sent.value.initiator, c.sent.value.responder)
    requires c.write.Some? && c.write.value.deleted && step.Handle? ==> c.write.value.d == step.task.responder
    ensures OneWay(ids, Performed(s, step, c))
  {
    TombstonesStayOneWay(ids, s, step, c);
    TasksStayOneWay(ids, s, step, c);
  }

  /** In every run whose exchanges are opened by the smaller key, a device holds a
      tombstone only if the database was deleted on it or on a device with a smaller key:
      tombstones travel upwards only, so a deletion on the device with the largest key
      reaches no other device. */
  lemma {:induction false} TombstonesTravelUpwards(ids: IdParser, init: Cluster, run: seq<Step>)
    requires IsRun(ids, init, run) && forall i :: 0 <= i < |run| ==> InOrder(run[i])
    ensures OneWay(ids, After(ids, init, run))
  {
    if run != [] {
      RunEnd(ids, init, run);
      TombstonesTravelUpwards(ids, init, run[..|run| - 1]);
      var s, step := After(ids, init, run[..|run| - 1]), run[|run| - 1];
      ChangesAreSound(ids, s, step);
      SendsInOrder(ids, s, step);
      SoundKeepsOneWay(ids, s, step, ChangeOf(ids, s, step));
    }
  }
}
