/** Exchanges between two devices and rounds of them: the message-by-message protocol comes to
    what an exchange is for, and a failure-free round serves every device with a larger key. */
module SyncRounds {
  import opened Text
  import opened Identifiers
  import opened DatabaseSync

  /** One step that is not a change of policy leads from `a` to `b`. */
  ghost predicate Linked(ids: IdParser, a: Cluster, b: Cluster) {
    exists step: Step :: !step.SetPolicy? && Enabled(a, step) && b == Apply(ids, a, step)
  }

  ghost predicate IsPath(ids: IdParser, path: seq<Cluster>) {
    |path| > 0 && forall i, j :: 0 <= i < |path| && 0 <= j < |path| && j == i + 1 ==> Linked(ids, path[i], path[j])
  }

  /** `later` is reached from `s` by steps of the cluster under an unchanged policy. */
  ghost predicate Follows(ids: IdParser, s: Cluster, later: Cluster) {
    exists path :: IsPath(ids, path) && path[0] == s && path[|path| - 1] == later
  }

  lemma StepFollows(ids: IdParser, s: Cluster, step: Step)
    requires Enabled(s, step) && !step.SetPolicy?
    ensures Follows(ids, s, Apply(ids, s, step))
  {
    var path := [s, Apply(ids, s, step)];
    assert Linked(ids, path[0], path[1]);
    assert IsPath(ids, path);
  }

  lemma Unchanged(ids: IdParser, s: Cluster)
    ensures Follows(ids, s, s)
  {
    assert IsPath(ids, [s]);
  }

  lemma PathsJoin(ids: IdParser, p: seq<Cluster>, q: seq<Cluster>)
    requires IsPath(ids, p) && IsPath(ids, q) && p[|p| - 1] == q[0]
    ensures IsPath(ids, p + q[1..]) && (p + q[1..])[|p| + |q| - 2] == q[|q| - 1]
  {
    var all := p + q[1..];
    forall i, j | 0 <= i < |all| && 0 <= j < |all| && j == i + 1 ensures Linked(ids, all[i], all[j]) {
      if j < |p| {
        assert Linked(ids, p[i], p[j]);
      } else {
        assert all[j] == q[j - |p| + 1] && all[i] == q[i - |p| + 1];
        assert Linked(ids, q[i - |p| + 1], q[j - |p| + 1]);
      }
    }
  }

  lemma FollowsTransitive(ids: IdParser, a: Cluster, b: Cluster, c: Cluster)
    requires Follows(ids, a, b) && Follows(ids, b, c)
    ensures Follows(ids, a, c)
  {
    var p :| IsPath(ids, p) && p[0] == a && p[|p| - 1] == b;
    var q :| IsPath(ids, q) && q[0] == b && q[|q| - 1] == c;
    PathsJoin(ids, p, q);
  }

  ghost predicate Grew(s: Cluster, later: Cluster) {
    && later.policy == s.policy && s.handles <= later.handles
    && (forall d, k :: Tombstoned(s, d, k) ==> Tombstoned(later, d, k))
    && (forall r :: r in s.records ==> r in later.records)
  }

  lemma LinkGrows(ids: IdParser, a: Cluster, b: Cluster)
    requires Linked(ids, a, b)
    ensures Grew(a, b)
  {
    var step: Step :| !step.SetPolicy? && Enabled(a, step) && b == Apply(ids, a, step);
    forall d, k | Tombstoned(a, d, k) ensures Tombstoned(b, d, k) {
      TombstonesGrow(ids, a, step, d, k);
    }
  }

  lemma {:induction false} PathGrows(ids: IdParser, path: seq<Cluster>, n: nat)
    requires IsPath(ids, path) && n < |path|
    ensures Grew(path[0], path[n])
  {
    if n > 0 {
      PathGrows(ids, path, n - 1);
      LinkGrows(ids, path[n - 1], path[n]);
    }
  }

  lemma FollowsGrows(ids: IdParser, s: Cluster, later: Cluster)
    requires Follows(ids, s, later)
    ensures Grew(s, later)
  {
    var path :| IsPath(ids, path) && path[0] == s && path[|path| - 1] == later;
    PathGrows(ids, path, |path| - 1);
  }

  /** What follows from the state after a run is the state after a longer run. */
  lemma FollowsIsRun(ids: IdParser, init: Cluster, run: seq<Step>, later: Cluster) returns (longer: seq<Step>)
    requires IsRun(ids, init, run) && Follows(ids, After(ids, init, run), later)
    ensures run <= longer && IsRun(ids, init, longer) && After(ids, init, longer) == later
  {
    var path :| IsPath(ids, path) && path[0] == After(ids, init, run) && path[|path| - 1] == later;
    longer := run;
    for n := 0 to |path| - 1
      invariant run <= longer && IsRun(ids, init, longer) && After(ids, init, longer) == path[n]
    {
      assert Linked(ids, path[n], path[n + 1]);
      var step: Step :| !step.SetPolicy? && Enabled(path[n], step) && path[n + 1] == Apply(ids, path[n], step);
      assert (longer + [step])[..|longer|] == longer;
      longer := longer + [step];
    }
  }

  /** Both sides authorize the resource, and the local device has a tombstone for it. */
  predicate Announceable(ids: IdParser, s: Cluster, local: Device, peer: Device, resource: Descriptor) {
    && Authorized(ids, s.policy, local, peer, resource)
    && Authorized(ids, s.policy, peer, local, resource)
    && Tombstoned(s, local, KeyOf(ids, resource).value)
  }

  predicate HasTombstone(ids: IdParser, s: Cluster, peer: Device, resource: Descriptor) {
    KeyOf(ids, resource).Some? && Tombstoned(s, peer, KeyOf(ids, resource).value)
  }

  lemma StaysAnnounceable(ids: IdParser, s: Cluster, later: Cluster, local: Device, peer: Device, resource: Descriptor)
    requires Follows(ids, s, later)
    ensures Announceable(ids, s, local, peer, resource) ==> Announceable(ids, later, local, peer, resource)
    ensures HasTombstone(ids, s, peer, resource) ==> HasTombstone(ids, later, peer, resource)
  {
    FollowsGrows(ids, s, later);
  }

  /** Handling a task makes a tombstone only on the responder to an announcement of it. */
  ghost predicate NewByTask(ids: IdParser, s: Cluster, later: Cluster, task: Task) {
    forall d, k | Tombstoned(later, d, k) && !Tombstoned(s, d, k) ::
      task.Handshake? && task.deleted && d == task.responder && KeyOf(ids, task.resource) == Some(k)
  }

  lemma HandlingIsNewByTask(ids: IdParser, s: Cluster, task: Task)
    requires Enabled(s, Handle(task))
    ensures NewByTask(ids, s, Apply(ids, s, Handle(task)), task)
  {
  }

  function Handled(ids: IdParser, s: Cluster, task: Task): Cluster {
    if task in s.tasks then Apply(ids, s, Handle(task)) else s
  }

  /** One task of an exchange is handled, if it is there. */
  method HandleIfPresent(ids: IdParser, s: Cluster, task: Task) returns (later: Cluster)
    ensures Follows(ids, s, later) && NewByTask(ids, s, later, task)
    ensures later == Handled(ids, s, task)
  {
    if task in s.tasks {
      later := Apply(ids, s, Handle(task));
      StepFollows(ids, s, Handle(task));
      HandlingIsNewByTask(ids, s, task);
    } else {
      later := s;
      Unchanged(ids, s);
    }
  }

  /** New tombstones are the peer's, of databases that were tombstoned on the local device. */
  ghost predicate OnlyTo(s: Cluster, later: Cluster, local: Device, peer: Device) {
    forall d, k | Tombstoned(later, d, k) && !Tombstoned(s, d, k) :: d == peer && Tombstoned(s, local, k)
  }

  ghost predicate NoneNew(s: Cluster, later: Cluster) {
    forall d, k | Tombstoned(later, d, k) :: Tombstoned(s, d, k)
  }

  lemma ExchangeIsOnlyTo(ids: IdParser, s: Cluster, sent: Cluster, accepted: Cluster, later: Cluster,
                         local: Device, peer: Device, resource: Descriptor, deleted: bool)
    requires sent.records == s.records && NewByTask(ids, sent, accepted, Handshake(local, peer, resource, deleted))
    requires KeyOf(ids, resource).Some? && deleted == Tombstoned(s, local, KeyOf(ids, resource).value)
    requires NoneNew(accepted, later)
    ensures OnlyTo(s, later, local, peer)
  {
    forall d, k | Tombstoned(later, d, k) && !Tombstoned(s, d, k) ensures d == peer && Tombstoned(s, local, k) {
      assert Tombstoned(accepted, d, k) && !Tombstoned(sent, d, k);
    }
  }

  lemma OnlyToTwice(s: Cluster, before: Cluster, later: Cluster, local: Device, peer: Device)
    requires OnlyTo(s, before, local, peer) && OnlyTo(before, later, local, peer)
    ensures OnlyTo(s, later, local, peer)
  {
    forall d, k | Tombstoned(later, d, k) && !Tombstoned(s, d, k) ensures d == peer && Tombstoned(s, local, k) {
      assert Tombstoned(before, local, k) ==> Tombstoned(s, local, k) || local == peer;
    }
  }

  function Finished(ids: IdParser, s: Cluster, local: Device, peer: Device, resource: Descriptor,
                    deleted: bool): Cluster {
    var a := Handled(ids, s, ResponderKv(local, peer, resource));
    var b := Handled(ids, a, Ack(local, peer, resource, deleted));
    Handled(ids, b, InitiatorKv(local, peer, resource))
  }

  /** No message of this exchange is under way. */
  predicate Quiet(s: Cluster, local: Device, peer: Device, resource: Descriptor) {
    && Handshake(local, peer, resource, true) !in s.tasks && Handshake(local, peer, resource, false) !in s.tasks
    && ResponderKv(local, peer, resource) !in s.tasks && InitiatorKv(local, peer, resource) !in s.tasks
    && Ack(local, peer, resource, true) !in s.tasks && Ack(local, peer, resource, false) !in s.tasks
  }

  /** What an exchange comes to. Both sides have to authorize it. A tombstone of the initiator goes
      to the peer; one of the peer ends the exchange. Otherwise the peer registers the database and
      opens it and its key-value store, and so does the initiator if the database is live there. */
  function Synchronized(ids: IdParser, s: Cluster, local: Device, peer: Device, resource: Descriptor): Cluster {
    if !Authorized(ids, s.policy, local, peer, resource) || !Authorized(ids, s.policy, peer, local, resource) then s
    else
      var k := KeyOf(ids, resource).value;
      if Tombstoned(s, local, k) then s.(records := s.records[(peer, k) := true])
      else if Tombstoned(s, peer, k) then s
      else Opened(s, local, peer, k)
  }

  function Opened(s: Cluster, local: Device, peer: Device, k: Key): Cluster {
    var peers := [HandleTaken(peer, k), HandleTaken(peer, k)];
    var locals := if Live(s, local, k) || local == peer then [HandleTaken(local, k), HandleTaken(local, k)] else [];
    s.(records := s.records[(peer, k) := false], handles := s.handles + (peers + locals))
  }

  /** The state with one more message under way. */
  function With(s: Cluster, t: Task): Cluster {
    s.(tasks := s.tasks + multiset{t})
  }

  /** The record is live and a handle for it was taken. */
  function Took(s: Cluster, d: Device, k: Key): Cluster {
    s.(records := s.records[(d, k) := false], handles := s.handles + [HandleTaken(d, k)])
  }

  lemma InitiateSends(ids: IdParser, s: Cluster, local: Device, peer: Device, resource: Descriptor)
    requires Authorized(ids, s.policy, local, peer, resource)
    ensures Apply(ids, s, Initiate(local, peer, resource)) ==
            With(s, Handshake(local, peer, resource, Tombstoned(s, local, KeyOf(ids, resource).value)))
  {
  }

  /** Handling a message that was just sent makes its change and nothing else. */
  lemma HandledJustSent(ids: IdParser, s: Cluster, t: Task)
    ensures Handled(ids, With(s, t), t) == Perform(s, ChangeOf(ids, s, Handle(t)))
  {
    var sent := With(s, t);
    assert sent.tasks - multiset{t} == s.tasks;
    assert Consume(sent, Handle(t)) == s;
    assert ChangeOf(ids, sent, Handle(t)) == ChangeOf(ids, s, Handle(t));
  }

  lemma PerformNothing(s: Cluster)
    ensures Perform(s, Nothing) == s
  {
  }

  lemma PerformTakes(s: Cluster, d: Device, k: Key, next: Task)
    ensures Perform(s, Change(Some(Record(d, k, false)), Some(HandleTaken(d, k)), Some(next), None)) ==
            With(Took(s, d, k), next)
  {
  }

  lemma PerformTakesLast(s: Cluster, d: Device, k: Key)
    ensures Perform(s, Change(Some(Record(d, k, false)), Some(HandleTaken(d, k)), None, None)) == Took(s, d, k)
  {
  }

  lemma PerformDeletes(s: Cluster, d: Device, k: Key, next: Task)
    ensures Perform(s, Change(Some(Record(d, k, true)), None, Some(next), None)) ==
            With(s.(records := s.records[(d, k) := true]), next)
  {
  }

  lemma HandshakeRefused(ids: IdParser, s: Cluster, h: Task)
    requires h.Handshake?
    requires !Authorized(ids, s.policy, h.responder, h.initiator, h.resource) ||
             (!h.deleted && Tombstoned(s, h.responder, KeyOf(ids, h.resource).value))
    ensures ChangeOf(ids, s, Handle(h)) == Nothing
  {
  }

  lemma HandshakeDeletes(ids: IdParser, s: Cluster, h: Task)
    requires h.Handshake? && h.deleted && Authorized(ids, s.policy, h.responder, h.initiator, h.resource)
    ensures ChangeOf(ids, s, Handle(h)) ==
            Change(Some(Record(h.responder, KeyOf(ids, h.resource).value, true)), None,
                   Some(Ack(h.initiator, h.responder, h.resource, true)), None)
  {
  }

  function Takes(d: Device, k: Key, next: Option<Task>): Change {
    Change(Some(Record(d, k, false)), Some(HandleTaken(d, k)), next, None)
  }

  lemma HandshakeOpens(ids: IdParser, s: Cluster, h: Task)
    requires h.Handshake? && !h.deleted && Authorized(ids, s.policy, h.responder, h.initiator, h.resource)
    requires !Tombstoned(s, h.responder, KeyOf(ids, h.resource).value)
    ensures ChangeOf(ids, s, Handle(h)) ==
            Takes(h.responder, KeyOf(ids, h.resource).value, Some(ResponderKv(h.initiator, h.responder, h.resource)))
  {
  }

  lemma ResponderOpensKv(ids: IdParser, s: Cluster, local: Device, peer: Device, resource: Descriptor)
    requires KeyOf(ids, resource).Some? && Live(s, peer, KeyOf(ids, resource).value)
    ensures ChangeOf(ids, s, Handle(ResponderKv(local, peer, resource))) ==
            Takes(peer, KeyOf(ids, resource).value, Some(Ack(local, peer, resource, false)))
  {
  }

  lemma InitiatorOpens(ids: IdParser, s: Cluster, local: Device, peer: Device, resource: Descriptor)
    requires KeyOf(ids, resource).Some?
    ensures ChangeOf(ids, s, Handle(Ack(local, peer, resource, false))) ==
            if Live(s, local, KeyOf(ids, resource).value) then
              Takes(local, KeyOf(ids, resource).value, Some(InitiatorKv(local, peer, resource)))
            else Nothing
  {
  }

  lemma InitiatorOpensKv(ids: IdParser, s: Cluster, local: Device, peer: Device, resource: Descriptor)
    requires KeyOf(ids, resource).Some? && Live(s, local, KeyOf(ids, resource).value)
    ensures ChangeOf(ids, s, Handle(InitiatorKv(local, peer, resource))) ==
            Takes(local, KeyOf(ids, resource).value, None)
  {
  }

  /** The three messages after a handshake, by what handling each of them leads to. */
  lemma FinishedBy(ids: IdParser, s: Cluster, local: Device, peer: Device, resource: Descriptor, deleted: bool,
                   a: Cluster, b: Cluster, c: Cluster)
    requires Handled(ids, s, ResponderKv(local, peer, resource)) == a
    requires Handled(ids, a, Ack(local, peer, resource, deleted)) == b
    requires Handled(ids, b, InitiatorKv(local, peer, resource)) == c
    ensures Finished(ids, s, local, peer, resource, deleted) == c
  {
  }

  lemma NotThere(ids: IdParser, s: Cluster, t: Task)
    requires t !in s.tasks
    ensures Handled(ids, s, t) == s
  {
  }

  lemma NothingToFinish(ids: IdParser, s: Cluster, local: Device, peer: Device, resource: Descriptor, deleted: bool)
    requires Quiet(s, local, peer, resource)
    ensures Finished(ids, s, local, peer, resource, deleted) == s
  {
    NotThere(ids, s, ResponderKv(local, peer, resource));
    NotThere(ids, s, Ack(local, peer, resource, deleted));
    NotThere(ids, s, InitiatorKv(local, peer, resource));
    FinishedBy(ids, s, local, peer, resource, deleted, s, s, s);
  }

  lemma AcknowledgementEnds(ids: IdParser, s: Cluster, ack: Task)
    requires ack.Ack? && ack.deleted
    ensures ChangeOf(ids, s, Handle(ack)) == Nothing
  {
  }

  lemma AnnouncementAcknowledged(ids: IdParser, s: Cluster, local: Device, peer: Device, resource: Descriptor)
    requires Quiet(s, local, peer, resource)
    ensures Finished(ids, With(s, Ack(local, peer, resource, true)), local, peer, resource, true) == s
  {
    var ack := Ack(local, peer, resource, true);
    NotThere(ids, With(s, ack), ResponderKv(local, peer, resource));
    AcknowledgementEnds(ids, s, ack);
    HandledJustSent(ids, s, ack);
    PerformNothing(s);
    NotThere(ids, s, InitiatorKv(local, peer, resource));
    FinishedBy(ids, With(s, ack), local, peer, resource, true, With(s, ack), s, s);
  }

  lemma ResponderHandled(ids: IdParser, s: Cluster, local: Device, peer: Device, resource: Descriptor)
    requires KeyOf(ids, resource).Some? && Live(s, peer, KeyOf(ids, resource).value)
    ensures Handled(ids, With(s, ResponderKv(local, peer, resource)), ResponderKv(local, peer, resource)) ==
            With(Took(s, peer, KeyOf(ids, resource).value), Ack(local, peer, resource, false))
  {
    HandledJustSent(ids, s, ResponderKv(local, peer, resource));
    ResponderOpensKv(ids, s, local, peer, resource);
    PerformTakes(s, peer, KeyOf(ids, resource).value, Ack(local, peer, resource, false));
  }

  lemma AckHandled(ids: IdParser, s: Cluster, local: Device, peer: Device, resource: Descriptor)
    requires KeyOf(ids, resource).Some?
    ensures Handled(ids, With(s, Ack(local, peer, resource, false)), Ack(local, peer, resource, false)) ==
            if Live(s, local, KeyOf(ids, resource).value) then
              With(Took(s, local, KeyOf(ids, resource).value), InitiatorKv(local, peer, resource))
            else s
  {
    HandledJustSent(ids, s, Ack(local, peer, resource, false));
    InitiatorOpens(ids, s, local, peer, resource);
    PerformNothing(s);
    PerformTakes(s, local, KeyOf(ids, resource).value, InitiatorKv(local, peer, resource));
  }

  lemma InitiatorKvHandled(ids: IdParser, s: Cluster, local: Device, peer: Device, resource: Descriptor)
    requires KeyOf(ids, resource).Some? && Live(s, local, KeyOf(ids, resource).value)
    ensures Handled(ids, With(s, InitiatorKv(local, peer, resource)), InitiatorKv(local, peer, resource)) ==
            Took(s, local, KeyOf(ids, resource).value)
  {
    HandledJustSent(ids, s, InitiatorKv(local, peer, resource));
    InitiatorOpensKv(ids, s, local, peer, resource);
    PerformTakesLast(s, local, KeyOf(ids, resource).value);
  }

  lemma TookLive(s: Cluster, d: Device, k: Key)
    requires Live(s, d, k)
    ensures Took(s, d, k) == s.(handles := s.handles + [HandleTaken(d, k)])
  {
    assert s.records[(d, k) := false] == s.records;
  }

  /** Once the peer has opened the database, both sides open what is left. */
  lemma DataSession(ids: IdParser, s: Cluster, local: Device, peer: Device, resource: Descriptor)
    requires Quiet(s, local, peer, resource) && KeyOf(ids, resource).Some?
    requires Live(s, peer, KeyOf(ids, resource).value)
    ensures var k := KeyOf(ids, resource).value; var a := Took(s, peer, k);
            Finished(ids, With(s, ResponderKv(local, peer, resource)), local, peer, resource, false) ==
            if Live(s, local, k) then Took(Took(a, local, k), local, k) else a
  {
    var k := KeyOf(ids, resource).value;
    var a := Took(s, peer, k);
    TookLive(s, peer, k);
    ResponderHandled(ids, s, local, peer, resource);
    AckHandled(ids, a, local, peer, resource);
    if Live(s, local, k) {
      TookLive(a, local, k);
      InitiatorKvHandled(ids, Took(a, local, k), local, peer, resource);
      FinishedBy(ids, With(s, ResponderKv(local, peer, resource)), local, peer, resource, false,
                 With(a, Ack(local, peer, resource, false)),
                 With(Took(a, local, k), InitiatorKv(local, peer, resource)),
                 Took(Took(a, local, k), local, k));
    } else {
      NotThere(ids, a, InitiatorKv(local, peer, resource));
      FinishedBy(ids, With(s, ResponderKv(local, peer, resource)), local, peer, resource, false,
                 With(a, Ack(local, peer, resource, false)), a, a);
    }
  }

  lemma ExchangeRefused(ids: IdParser, s: Cluster, h: Task)
    requires h.Handshake? && Quiet(s, h.initiator, h.responder, h.resource)
    requires !Authorized(ids, s.policy, h.responder, h.initiator, h.resource) ||
             (!h.deleted && Tombstoned(s, h.responder, KeyOf(ids, h.resource).value))
    ensures Finished(ids, Handled(ids, With(s, h), h), h.initiator, h.responder, h.resource, h.deleted) == s
  {
    HandledJustSent(ids, s, h);
    HandshakeRefused(ids, s, h);
    PerformNothing(s);
    NothingToFinish(ids, s, h.initiator, h.responder, h.resource, h.deleted);
  }

  lemma ExchangeDeletes(ids: IdParser, s: Cluster, h: Task)
    requires h.Handshake? && Quiet(s, h.initiator, h.responder, h.resource) && h.deleted
    requires Authorized(ids, s.policy, h.responder, h.initiator, h.resource)
    ensures Finished(ids, Handled(ids, With(s, h), h), h.initiator, h.responder, h.resource, true) ==
            s.(records := s.records[(h.responder, KeyOf(ids, h.resource).value) := true])
  {
    var k := KeyOf(ids, h.resource).value;
    HandledJustSent(ids, s, h);
    HandshakeDeletes(ids, s, h);
    PerformDeletes(s, h.responder, k, Ack(h.initiator, h.responder, h.resource, true));
    AnnouncementAcknowledged(ids, s.(records := s.records[(h.responder, k) := true]),
                             h.initiator, h.responder, h.resource);
  }

  lemma ExchangeOpens(ids: IdParser, s: Cluster, h: Task)
    requires h.Handshake? && Quiet(s, h.initiator, h.responder, h.resource) && !h.deleted
    requires Authorized(ids, s.policy, h.responder, h.initiator, h.resource)
    requires !Tombstoned(s, h.responder, KeyOf(ids, h.resource).value)
    ensures var k := KeyOf(ids, h.resource).value;
            Finished(ids, Handled(ids, With(s, h), h), h.initiator, h.responder, h.resource, false) ==
            Opened(s, h.initiator, h.responder, k)
  {
    var k, a := KeyOf(ids, h.resource).value, Took(s, h.responder, KeyOf(ids, h.resource).value);
    HandledJustSent(ids, s, h);
    HandshakeOpens(ids, s, h);
    PerformTakes(s, h.responder, k, ResponderKv(h.initiator, h.responder, h.resource));
    DataSession(ids, a, h.initiator, h.responder, h.resource);
    TookAll(s, h.initiator, h.responder, k);
  }

  lemma TookAll(s: Cluster, local: Device, peer: Device, k: Key)
    ensures var b := Took(Took(s, peer, k), peer, k);
            Opened(s, local, peer, k) ==
            if Live(s, local, k) || local == peer then Took(Took(b, local, k), local, k) else b
  {
    var a := Took(s, peer, k);
    TookLive(a, peer, k);
    var b := Took(a, peer, k);
    if Live(s, local, k) || local == peer {
      TookLive(b, local, k);
      TookLive(Took(b, local, k), local, k);
    }
  }

  /** The messages of an exchange, handled one after the other, come to what it is for. */
  lemma ExchangeOutcome(ids: IdParser, s: Cluster, local: Device, peer: Device, resource: Descriptor)
    requires Quiet(s, local, peer, resource) && Authorized(ids, s.policy, local, peer, resource)
    ensures var deleted := Tombstoned(s, local, KeyOf(ids, resource).value);
            var h := Handshake(local, peer, resource, deleted);
            Finished(ids, Handled(ids, With(s, h), h), local, peer, resource, deleted) ==
            Synchronized(ids, s, local, peer, resource)
  {
    var k := KeyOf(ids, resource).value;
    var deleted := Tombstoned(s, local, k);
    var h := Handshake(local, peer, resource, deleted);
    if !Authorized(ids, s.policy, peer, local, resource) || (!deleted && Tombstoned(s, peer, k)) {
      ExchangeRefused(ids, s, h);
    } else if deleted {
      ExchangeDeletes(ids, s, h);
    } else {
      ExchangeOpens(ids, s, h);
    }
  }

  /** An exchange that both sides authorize, on what either side has: a database live on the
      initiator and not tombstoned on the peer is live on both afterwards, and the peer's two
      handles are taken before the initiator's two; the peer's tombstone stops everything; without
      a record the initiator takes no handle; the initiator's tombstone reaches the peer. */
  lemma ExchangeIsFor(ids: IdParser, s: Cluster, local: Device, peer: Device, resource: Descriptor)
    requires local != peer
    requires Authorized(ids, s.policy, local, peer, resource) && Authorized(ids, s.policy, peer, local, resource)
    ensures var k := KeyOf(ids, resource).value; var later := Synchronized(ids, s, local, peer, resource);
            var two := [HandleTaken(peer, k), HandleTaken(peer, k)];
            && (Live(s, local, k) && !Tombstoned(s, peer, k) ==>
                  Live(later, local, k) && Live(later, peer, k) &&
                  later.handles == s.handles + (two + [HandleTaken(local, k), HandleTaken(local, k)]))
            && (!Tombstoned(s, local, k) && Tombstoned(s, peer, k) ==> later == s)
            && ((local, k) !in s.records && !Tombstoned(s, peer, k) ==>
                  Live(later, peer, k) && (local, k) !in later.records && later.handles == s.handles + two)
            && (Tombstoned(s, local, k) ==>
                  Tombstoned(later, local, k) && Tombstoned(later, peer, k) && later.handles == s.handles)
            && later.tasks == s.tasks && later.deletions == s.deletions && later.policy == s.policy
            && (forall r :: r in later.records && r != (peer, k) ==> r in s.records && later.records[r] == s.records[r])
  {
  }

  /** The messages of an exchange the initiator authorizes, one after the other. */
  method HandleExchange(ids: IdParser, s: Cluster, local: Device, peer: Device, resource: Descriptor, deleted: bool)
    returns (later: Cluster)
    requires Authorized(ids, s.policy, local, peer, resource)
    requires deleted == Tombstoned(s, local, KeyOf(ids, resource).value)
    ensures Follows(ids, s, later) && OnlyTo(s, later, local, peer)
    ensures Announceable(ids, s, local, peer, resource) ==> HasTombstone(ids, later, peer, resource)
    ensures var h := Handshake(local, peer, resource, deleted);
            later == Finished(ids, Handled(ids, With(s, h), h), local, peer, resource, deleted)
  {
    InitiateSends(ids, s, local, peer, resource);
    var sent := Apply(ids, s, Initiate(local, peer, resource));
    StepFollows(ids, s, Initiate(local, peer, resource));
    var accepted := HandleIfPresent(ids, sent, Handshake(local, peer, resource, deleted));
    assert Announceable(ids, s, local, peer, resource) ==> HasTombstone(ids, accepted, peer, resource) by {
      if Announceable(ids, s, local, peer, resource) {
        AnnouncementArrives(ids, sent, local, peer, resource);
      }
    }
    later := FinishExchange(ids, accepted, local, peer, resource, deleted);
    ExchangeIsOnlyTo(ids, s, sent, accepted, later, local, peer, resource, deleted);
    FollowsTransitive(ids, s, sent, accepted);
    FollowsTransitive(ids, s, accepted, later);
    StaysAnnounceable(ids, accepted, later, local, peer, resource);
  }

  /** `synchronize_peer` together with the peer's `accept_stream`, no message lost. */
  method SynchronizePeer(ids: IdParser, s: Cluster, local: Device, peer: Device, resource: Descriptor)
    returns (later: Cluster)
    ensures Follows(ids, s, later) && OnlyTo(s, later, local, peer)
    ensures Settled(ids, s, later, local, peer, resource) && StaysCalm(s, later)
    ensures Quiet(s, local, peer, resource) ==> later == Synchronized(ids, s, local, peer, resource)
  {
    ExchangeSettles(ids, s, local, peer, resource);
    if !Authorized(ids, s.policy, local, peer, resource) {
      Unchanged(ids, s);
      return s;
    }
    var deleted := Tombstoned(s, local, KeyOf(ids, resource).value);
    later := HandleExchange(ids, s, local, peer, resource, deleted);
    if Quiet(s, local, peer, resource) { ExchangeOutcome(ids, s, local, peer, resource); }
    KeepsTasks(ids, s, local, peer, resource);
  }

  lemma KeepsTasks(ids: IdParser, s: Cluster, local: Device, peer: Device, resource: Descriptor)
    ensures Synchronized(ids, s, local, peer, resource).tasks == s.tasks
    ensures s.tasks == multiset{} ==> Quiet(s, local, peer, resource)
  {
  }

  /** After the handshake: the peer opens its key-value store and acknowledges, then the
      initiator opens its handles. */
  method FinishExchange(ids: IdParser, s: Cluster, local: Device, peer: Device, resource: Descriptor, deleted: bool)
    returns (later: Cluster)
    ensures Follows(ids, s, later) && NoneNew(s, later)
    ensures later == Finished(ids, s, local, peer, resource, deleted)
  {
    var a := HandleIfPresent(ids, s, ResponderKv(local, peer, resource));
    var b := HandleIfPresent(ids, a, Ack(local, peer, resource, deleted));
    later := HandleIfPresent(ids, b, InitiatorKv(local, peer, resource));
    FollowsTransitive(ids, s, a, b);
    FollowsTransitive(ids, s, b, later);
  }

  /** Both sides authorize the resource, and it is live on the local device. */
  predicate Serviceable(ids: IdParser, s: Cluster, local: Device, peer: Device, resource: Descriptor) {
    && Authorized(ids, s.policy, local, peer, resource)
    && Authorized(ids, s.policy, peer, local, resource)
    && Live(s, local, KeyOf(ids, resource).value)
  }

  /** The four handles of a data session: the peer's two, then the local two. */
  predicate SessionAt(i: nat, handles: seq<HandleTaken>, local: Device, peer: Device, k: Key) {
    && i + 4 <= |handles| && handles[i] == handles[i + 1] == HandleTaken(peer, k)
    && handles[i + 2] == handles[i + 3] == HandleTaken(local, k)
  }

  /** A data session from the n-th handle on. */
  ghost predicate HadSession(n: nat, handles: seq<HandleTaken>, local: Device, peer: Device, k: Key) {
    exists i :: n <= i && SessionAt(i, handles, local, peer, k)
  }

  /** A tombstone that could be announced in `s` has reached the peer. When no message was under
      way in `s`, a live database has had a data session with the peer, unless the peer has its
      tombstone. */
  ghost predicate Settled(ids: IdParser, s: Cluster, later: Cluster, local: Device, peer: Device,
                          resource: Descriptor) {
    && (Announceable(ids, s, local, peer, resource) ==> HasTombstone(ids, later, peer, resource))
    && (s.tasks == multiset{} && Serviceable(ids, s, local, peer, resource) ==>
          HasTombstone(ids, later, peer, resource) ||
          HadSession(|s.handles|, later.handles, local, peer, KeyOf(ids, resource).value))
  }

  /** No message is under way afterwards if none was before. */
  predicate StaysCalm(s: Cluster, later: Cluster) {
    s.tasks == multiset{} ==> later.tasks == multiset{}
  }

  lemma SessionStays(n: nat, m: nat, handles: seq<HandleTaken>, more: seq<HandleTaken>, local: Device, peer: Device,
                     k: Key)
    requires HadSession(m, handles, local, peer, k) && n <= m && handles <= more
    ensures HadSession(n, more, local, peer, k)
  {
    var i :| m <= i && SessionAt(i, handles, local, peer, k);
    assert SessionAt(i, more, local, peer, k);
  }

  /** What an exchange comes to settles its resource. */
  lemma ExchangeSettles(ids: IdParser, s: Cluster, local: Device, peer: Device, resource: Descriptor)
    ensures Settled(ids, s, Synchronized(ids, s, local, peer, resource), local, peer, resource)
  {
    if Serviceable(ids, s, local, peer, resource) {
      var k, n := KeyOf(ids, resource).value, |s.handles|;
      var later := Synchronized(ids, s, local, peer, resource);
      assert !Tombstoned(s, peer, k) ==> SessionAt(n, later.handles, local, peer, k);
    }
  }

  /** Settled in between is settled in the whole. */
  lemma SettledLater(ids: IdParser, s: Cluster, b: Cluster, c: Cluster, d: Cluster, local: Device, peer: Device,
                     resource: Descriptor)
    requires Follows(ids, s, b) && StaysCalm(s, b) && Settled(ids, b, c, local, peer, resource) && Follows(ids, c, d)
    ensures Settled(ids, s, d, local, peer, resource)
  {
    FollowsGrows(ids, s, b);
    FollowsGrows(ids, c, d);
    if s.tasks == multiset{} && Serviceable(ids, s, local, peer, resource) {
      var k := KeyOf(ids, resource).value;
      assert Live(b, local, k) || Tombstoned(b, local, k);
      if HadSession(|b.handles|, c.handles, local, peer, k) {
        SessionStays(|s.handles|, |b.handles|, c.handles, d.handles, local, peer, k);
      }
    }
  }

  /** One more exchange of a round that began in `s`. */
  method SynchronizeNext(ids: IdParser, ghost s: Cluster, before: Cluster, local: Device, peer: Device,
                         resource: Descriptor)
    returns (later: Cluster)
    requires Follows(ids, s, before) && StaysCalm(s, before)
    ensures Follows(ids, s, later) && Follows(ids, before, later) && StaysCalm(s, later)
    ensures OnlyTo(before, later, local, peer) && Settled(ids, s, later, local, peer, resource)
  {
    later := SynchronizePeer(ids, before, local, peer, resource);
    FollowsTransitive(ids, s, before, later);
    Unchanged(ids, later);
    SettledLater(ids, s, before, later, later, local, peer, resource);
  }

  /** Everything between the two devices is settled. */
  ghost predicate CaughtUp(ids: IdParser, s: Cluster, later: Cluster, local: Device, peer: Device) {
    forall resource :: Settled(ids, s, later, local, peer, resource)
  }

  lemma StaysCaughtUp(ids: IdParser, s: Cluster, b: Cluster, c: Cluster, d: Cluster, local: Device, peer: Device)
    requires Follows(ids, s, b) && StaysCalm(s, b) && CaughtUp(ids, b, c, local, peer) && Follows(ids, c, d)
    ensures CaughtUp(ids, s, d, local, peer)
  {
    forall resource ensures Settled(ids, s, d, local, peer, resource) {
      SettledLater(ids, s, b, c, d, local, peer, resource);
    }
  }

  ghost predicate SelectionSettled(ids: IdParser, s: Cluster, later: Cluster, local: Device, peer: Device,
                                   selected: seq<SelectedResource>) {
    forall m | 0 <= m < |selected| && selected[m].kind == "database" ::
      Settled(ids, s, later, local, peer, DescriptorOf(selected[m]))
  }

  lemma NextSelected(ids: IdParser, s: Cluster, before: Cluster, later: Cluster, local: Device, peer: Device,
                     selected: seq<SelectedResource>, n: nat)
    requires n < |selected| && SelectionSettled(ids, s, before, local, peer, selected[..n])
    requires Follows(ids, before, later)
    requires selected[n].kind == "database" ==> Settled(ids, s, later, local, peer, DescriptorOf(selected[n]))
    ensures SelectionSettled(ids, s, later, local, peer, selected[..n + 1])
  {
    var some := selected[..n + 1];
    Unchanged(ids, s);
    forall m | 0 <= m < |some| && some[m].kind == "database"
      ensures Settled(ids, s, later, local, peer, DescriptorOf(some[m]))
    {
      if m < n {
        assert selected[..n][m] == some[m];
        SettledLater(ids, s, s, before, later, local, peer, DescriptorOf(some[m]));
      }
    }
  }

  /** The inner loop of `synchronize_selected_peers`: all selected databases with one peer. */
  method SynchronizeSelection(ids: IdParser, s: Cluster, local: Device, peer: Device, selected: seq<SelectedResource>)
    returns (later: Cluster)
    ensures Follows(ids, s, later) && StaysCalm(s, later) && OnlyTo(s, later, local, peer)
    ensures SelectionSettled(ids, s, later, local, peer, selected)
  {
    later := s;
    Unchanged(ids, s);
    for n := 0 to |selected|
      invariant Follows(ids, s, later) && StaysCalm(s, later) && OnlyTo(s, later, local, peer)
      invariant SelectionSettled(ids, s, later, local, peer, selected[..n])
    {
      var before := later;
      if selected[n].kind == "database" {
        later := SynchronizeNext(ids, s, before, local, peer, DescriptorOf(selected[n]));
        OnlyToTwice(s, before, later, local, peer);
      } else {
        Unchanged(ids, later);
      }
      NextSelected(ids, s, before, later, local, peer, selected, n);
    }
    Whole(selected);
  }

  lemma SelectionCovers(ids: IdParser, s: Cluster, later: Cluster, local: Device, peer: Device)
    requires local in s.policy.selected && SelectionSettled(ids, s, later, local, peer, s.policy.selected[local])
    ensures CaughtUp(ids, s, later, local, peer)
  {
    forall resource ensures Settled(ids, s, later, local, peer, resource) {
      if Authorized(ids, s.policy, local, peer, resource) {
        var m :| 0 <= m < |s.policy.selected[local]| && Matches(resource, s.policy.selected[local][m]);
        assert DescriptorOf(s.policy.selected[local][m]) == resource;
      }
    }
  }

  /** Every tombstone is one that the device or a device with a smaller key already had. */
  ghost predicate SpreadsUpwards(s: Cluster, later: Cluster) {
    forall d, k | Tombstoned(later, d, k) :: HeldUpTo(s, d, k)
  }

  ghost predicate HeldUpTo(s: Cluster, d: Device, k: Key) {
    exists e :: Tombstoned(s, e, k) && (e == d || Less(e, d))
  }

  lemma SpreadsTransitive(a: Cluster, b: Cluster, c: Cluster)
    requires SpreadsUpwards(a, b) && SpreadsUpwards(b, c)
    ensures SpreadsUpwards(a, c)
  {
    forall d, k | Tombstoned(c, d, k) ensures HeldUpTo(a, d, k) {
      assert HeldUpTo(b, d, k);
      var e :| Tombstoned(b, e, k) && (e == d || Less(e, d));
      assert HeldUpTo(a, e, k);
      var f :| Tombstoned(a, f, k) && (f == e || Less(f, e));
      if f != e && e != d { LessTransitive(f, e, d); }
    }
  }

  lemma OnlyToSpreads(s: Cluster, later: Cluster, local: Device, peer: Device)
    requires OnlyTo(s, later, local, peer) && Less(local, peer)
    ensures SpreadsUpwards(s, later)
  {
    forall d, k | Tombstoned(later, d, k) ensures HeldUpTo(s, d, k) {
      if !Tombstoned(s, d, k) { assert Tombstoned(s, local, k) && Less(local, d); }
    }
  }

  lemma SpreadsToItself(s: Cluster)
    ensures SpreadsUpwards(s, s)
  {
  }

  /** `synchronize_selected_peers`: only peers with a larger key. */
  method SynchronizeSelectedPeers(ids: IdParser, s: Cluster, local: Device, peers: seq<Device>) returns (later: Cluster)
    ensures Follows(ids, s, later) && StaysCalm(s, later) && SpreadsUpwards(s, later)
    ensures forall i | 0 <= i < |peers| && Initiates(local, peers[i]) :: CaughtUp(ids, s, later, local, peers[i])
  {
    later := s;
    Unchanged(ids, s);
    SpreadsToItself(s);
    if local !in s.policy.selected { return; }
    var selected := s.policy.selected[local];
    for n := 0 to |peers|
      invariant Follows(ids, s, later) && StaysCalm(s, later) && SpreadsUpwards(s, later)
      invariant forall i | 0 <= i < n && Initiates(local, peers[i]) :: CaughtUp(ids, s, later, local, peers[i])
    {
      if Less(local, peers[n]) {
        var before := later;
        FollowsGrows(ids, s, before);
        later := SynchronizeSelection(ids, before, local, peers[n], selected);
        SelectionCovers(ids, before, later, local, peers[n]);
        NextPeer(ids, s, before, later, local, peers, n);
        OnlyToSpreads(before, later, local, peers[n]);
        SpreadsTransitive(s, before, later);
      }
    }
  }

  lemma NextPeer(ids: IdParser, s: Cluster, before: Cluster, later: Cluster, local: Device, peers: seq<Device>, n: nat)
    requires n < |peers| && Follows(ids, s, before) && StaysCalm(s, before) && Follows(ids, before, later)
    requires forall i | 0 <= i < n && Initiates(local, peers[i]) :: CaughtUp(ids, s, before, local, peers[i])
    requires CaughtUp(ids, before, later, local, peers[n])
    ensures Follows(ids, s, later)
    ensures forall i | 0 <= i <= n && Initiates(local, peers[i]) :: CaughtUp(ids, s, later, local, peers[i])
  {
    FollowsTransitive(ids, s, before, later);
    Unchanged(ids, s);
    Unchanged(ids, later);
    forall i | 0 <= i <= n && Initiates(local, peers[i]) ensures CaughtUp(ids, s, later, local, peers[i]) {
      if i < n {
        StaysCaughtUp(ids, s, s, before, later, local, peers[i]);
      } else {
        StaysCaughtUp(ids, s, before, later, later, local, peers[i]);
      }
    }
  }

  lemma NextDevice(ids: IdParser, s: Cluster, before: Cluster, later: Cluster, devices: seq<Device>, n: nat)
    requires n < |devices| && Follows(ids, s, before) && StaysCalm(s, before) && Follows(ids, before, later)
    requires forall i, j | 0 <= i < n && 0 <= j < |devices| && Initiates(devices[i], devices[j]) ::
               CaughtUp(ids, s, before, devices[i], devices[j])
    requires forall j | 0 <= j < |devices| && Initiates(devices[n], devices[j]) ::
               CaughtUp(ids, before, later, devices[n], devices[j])
    ensures Follows(ids, s, later)
    ensures forall i, j | 0 <= i <= n && 0 <= j < |devices| && Initiates(devices[i], devices[j]) ::
              CaughtUp(ids, s, later, devices[i], devices[j])
  {
    FollowsTransitive(ids, s, before, later);
    Unchanged(ids, s);
    Unchanged(ids, later);
    forall i, j | 0 <= i <= n && 0 <= j < |devices| && Initiates(devices[i], devices[j])
      ensures CaughtUp(ids, s, later, devices[i], devices[j])
    {
      if i < n {
        StaysCaughtUp(ids, s, s, before, later, devices[i], devices[j]);
      } else {
        StaysCaughtUp(ids, s, before, later, later, devices[i], devices[j]);
      }
    }
  }

  /** Every device runs `synchronize_selected_peers` once, in the order given: afterwards
      each tombstone that a device held at the start, for a resource authorized on both
      sides, is also held by every peer with a larger key, and no tombstone has gone to a
      device with a smaller key than all that held it. Each database live at the start has had a
      data session with every such peer that does not hold its tombstone. */
  method Round(ids: IdParser, s: Cluster, devices: seq<Device>) returns (later: Cluster)
    ensures Follows(ids, s, later) && StaysCalm(s, later) && SpreadsUpwards(s, later)
    ensures forall i, j | 0 <= i < |devices| && 0 <= j < |devices| && Initiates(devices[i], devices[j]) ::
              CaughtUp(ids, s, later, devices[i], devices[j])
  {
    later := s;
    Unchanged(ids, s);
    SpreadsToItself(s);
    for n := 0 to |devices|
      invariant Follows(ids, s, later) && StaysCalm(s, later) && SpreadsUpwards(s, later)
      invariant forall i, j | 0 <= i < n && 0 <= j < |devices| && Initiates(devices[i], devices[j]) ::
                  CaughtUp(ids, s, later, devices[i], devices[j])
    {
      var before := later;
      later := SynchronizeSelectedPeers(ids, before, devices[n], devices);
      SpreadsTransitive(s, before, later);
      NextDevice(ids, s, before, later, devices, n);
    }
  }
}
