/** Which devices can learn of a deletion, given that exchanges are opened by the smaller key. */
module DeletionReach {
  import opened Text
  import opened DatabaseSync
  import opened SyncRounds

  predicate AllInOrder(run: seq<Step>) {
    forall i :: 0 <= i < |run| ==> InOrder(run[i])
  }

  /** No device but x ever deleted k. */
  ghost predicate OnlyDeletedOn(s: Cluster, x: Device, k: Key) {
    forall d :: (d, k) in s.deletions ==> d == x
  }

  /** Some run, its exchanges opened by the smaller key and k deleted only on x, ends with p
      holding the tombstone of k. */
  ghost predicate Reaches(ids: IdParser, x: Device, p: Device, k: Key) {
    exists init, run :: IsRun(ids, init, run) && Delivers(ids, init, run, x, p, k)
  }

  ghost predicate Delivers(ids: IdParser, init: Cluster, run: seq<Step>, x: Device, p: Device, k: Key) {
    AllInOrder(run) && OnlyDeletedOn(After(ids, init, run), x, k) && Tombstoned(After(ids, init, run), p, k)
  }

  lemma {:induction false} Extend(ids: IdParser, init: Cluster, run: seq<Step>, step: Step, s: Cluster)
    returns (longer: seq<Step>)
    requires IsRun(ids, init, run) && AllInOrder(run) && Enabled(After(ids, init, run), step) && InOrder(step)
    requires Apply(ids, After(ids, init, run), step) == s
    ensures IsRun(ids, init, longer) && AllInOrder(longer) && After(ids, init, longer) == s
  {
    longer := run + [step];
    assert longer[..|run|] == run;
  }

  /** x and p both select the resource and admit each other for it. */
  function BothAllow(x: Device, p: Device, r: Descriptor): Policy {
    var selected := [SelectedResource(r.owner, r.application, "database", r.database)];
    Policy(map[x := selected, p := selected],
           {(x, p, r.application, r.database), (p, x, r.application, r.database)})
  }

  lemma BothAuthorized(ids: IdParser, x: Device, p: Device, r: Descriptor)
    requires KeyOf(ids, r).Some?
    ensures Authorized(ids, BothAllow(x, p, r), x, p, r) && Authorized(ids, BothAllow(x, p, r), p, x, r)
  {
    var policy := BothAllow(x, p, r);
    assert Matches(r, policy.selected[x][0]) && Matches(r, policy.selected[p][0]);
  }

  function Start(policy: Policy): Cluster {
    Cluster(map[], policy, multiset{}, [], {})
  }

  function Created(policy: Policy, x: Device, k: Key): Cluster {
    Cluster(map[(x, k) := false], policy, multiset{}, [], {})
  }

  function Deleted(policy: Policy, x: Device, k: Key, tasks: multiset<Task>): Cluster {
    Cluster(map[(x, k) := true], policy, tasks, [], {(x, k)})
  }

  lemma CreateEffect(ids: IdParser, policy: Policy, x: Device, k: Key)
    requires Accepted(k)
    ensures Enabled(Start(policy), Create(x, k, true))
    ensures Apply(ids, Start(policy), Create(x, k, true)) == Created(policy, x, k)
  {
  }

  lemma DeleteEffect(ids: IdParser, policy: Policy, x: Device, k: Key)
    requires Accepted(k)
    ensures Apply(ids, Created(policy, x, k), Delete(x, k)) == Deleted(policy, x, k, multiset{})
  {
    assert map[(x, k) := false][(x, k) := true] == map[(x, k) := true];
  }

  lemma InitiateEffect(ids: IdParser, policy: Policy, x: Device, p: Device, k: Key, r: Descriptor)
    requires KeyOf(ids, r) == Some(k) && Authorized(ids, policy, x, p, r)
    ensures Apply(ids, Deleted(policy, x, k, multiset{}), Initiate(x, p, r)) ==
            Deleted(policy, x, k, multiset{Handshake(x, p, r, true)})
  {
  }

  /** x has created and deleted k, and nothing else has happened. */
  lemma {:induction false} DeletedOn(ids: IdParser, policy: Policy, x: Device, k: Key) returns (run: seq<Step>)
    requires Accepted(k)
    ensures IsRun(ids, Start(policy), run) && AllInOrder(run)
    ensures After(ids, Start(policy), run) == Deleted(policy, x, k, multiset{})
  {
    CreateEffect(ids, policy, x, k);
    run := Extend(ids, Start(policy), [], Create(x, k, true), Created(policy, x, k));
    DeleteEffect(ids, policy, x, k);
    run := Extend(ids, Start(policy), run, Delete(x, k), Deleted(policy, x, k, multiset{}));
  }

  lemma HandleEffect(ids: IdParser, policy: Policy, x: Device, p: Device, k: Key, r: Descriptor)
    requires KeyOf(ids, r) == Some(k) && Authorized(ids, policy, p, x, r)
    ensures var s := Apply(ids, Deleted(policy, x, k, multiset{Handshake(x, p, r, true)}),
                         Handle(Handshake(x, p, r, true)));
            Tombstoned(s, p, k) && s.deletions == {(x, k)}
  {
    AnnouncementArrives(ids, Deleted(policy, x, k, multiset{Handshake(x, p, r, true)}), x, p, r);
  }

  /** The device with the smaller key announces the deletion to one with a larger key. */
  lemma {:induction false} Announced(ids: IdParser, r: Descriptor, x: Device, p: Device, k: Key)
    returns (run: seq<Step>)
    requires KeyOf(ids, r) == Some(k) && Less(x, p)
    ensures IsRun(ids, Start(BothAllow(x, p, r)), run) && Delivers(ids, Start(BothAllow(x, p, r)), run, x, p, k)
  {
    var policy := BothAllow(x, p, r);
    BothAuthorized(ids, x, p, r);
    run := AnnouncedUnder(ids, policy, r, x, p, k);
  }

  lemma {:induction false} AnnouncedUnder(ids: IdParser, policy: Policy, r: Descriptor, x: Device, p: Device, k: Key)
    returns (run: seq<Step>)
    requires KeyOf(ids, r) == Some(k) && Less(x, p)
    requires Authorized(ids, policy, x, p, r) && Authorized(ids, policy, p, x, r)
    ensures IsRun(ids, Start(policy), run) && Delivers(ids, Start(policy), run, x, p, k)
  {
    var sent := Deleted(policy, x, k, multiset{Handshake(x, p, r, true)});
    run := DeletedOn(ids, policy, x, k);
    InitiateEffect(ids, policy, x, p, k, r);
    run := Extend(ids, Start(policy), run, Initiate(x, p, r), sent);
    HandleEffect(ids, policy, x, p, k, r);
    var handled := Apply(ids, sent, Handle(Handshake(x, p, r, true)));
    run := Extend(ids, Start(policy), run, Handle(Handshake(x, p, r, true)), handled);
  }

  /** A deletion on x alone can become known to p exactly when p is x or has a larger key. */
  lemma {:induction false} ReachesIff(ids: IdParser, r: Descriptor, k: Key, x: Device, p: Device)
    requires KeyOf(ids, r) == Some(k)
    ensures Reaches(ids, x, p, k) <==> x == p || Less(x, p)
  {
    if Reaches(ids, x, p, k) {
      var init, run :| IsRun(ids, init, run) && Delivers(ids, init, run, x, p, k);
      TombstonesTravelUpwards(ids, init, run);
      assert DeletedUpTo(After(ids, init, run), p, k);
    }
    if x == p {
      var policy := BothAllow(x, p, r);
      var run := DeletedOn(ids, policy, x, k);
      assert Delivers(ids, Start(policy), run, x, p, k);
    } else if Less(x, p) {
      var run := Announced(ids, r, x, p, k);
    }
  }

  /** Every catalog record is in a namespace that storage accepts. */
  ghost predicate AllAccepted(s: Cluster) {
    forall r :: r in s.records ==> Accepted(r.1)
  }

  lemma StepKeepsAccepted(ids: IdParser, s: Cluster, step: Step)
    requires Enabled(s, step) && AllAccepted(s)
    ensures AllAccepted(Apply(ids, s, step))
  {
    assert ChangeOf(ids, s, step).write.Some? ==> Accepted(ChangeOf(ids, s, step).write.value.k);
  }

  lemma {:induction false} RunKeepsAccepted(ids: IdParser, init: Cluster, run: seq<Step>)
    requires IsRun(ids, init, run)
    ensures AllAccepted(After(ids, init, run))
  {
    if run != [] {
      RunEnd(ids, init, run);
      RunKeepsAccepted(ids, init, run[..|run| - 1]);
      StepKeepsAccepted(ids, After(ids, init, run[..|run| - 1]), run[|run| - 1]);
    }
  }

  /** In a namespace that storage refuses there is nothing to learn of. */
  lemma RefusedNeverReached(ids: IdParser, k: Key, x: Device, p: Device)
    requires !Accepted(k)
    ensures !Reaches(ids, x, p, k)
  {
    forall init, run | IsRun(ids, init, run) ensures !Delivers(ids, init, run, x, p, k) {
      RunKeepsAccepted(ids, init, run);
    }
  }

  // ---------------------------------------------------------------- a full round

  ghost predicate OnlyHeldBy(s: Cluster, x: Device, k: Key) {
    forall d :: Tombstoned(s, d, k) <==> d == x
  }

  /** After a failure-free round from a state in which only x has the tombstone and x and p both
      authorize the database, p has it exactly when p is x or has a larger key. */
  lemma RoundReachesIff(ids: IdParser, s: Cluster, later: Cluster, r: Descriptor, x: Device, p: Device)
    requires Announceable(ids, s, x, p, r) && OnlyHeldBy(s, x, KeyOf(ids, r).value)
    requires Follows(ids, s, later) && SpreadsUpwards(s, later)
    requires Initiates(x, p) ==> CaughtUp(ids, s, later, x, p)
    ensures Tombstoned(later, p, KeyOf(ids, r).value) <==> x == p || Less(x, p)
  {
    var k := KeyOf(ids, r).value;
    FollowsGrows(ids, s, later);
    if Tombstoned(later, p, k) { assert HeldUpTo(s, p, k); }
    assert Initiates(x, p) ==> Settled(ids, s, later, x, p, r);
  }

  /** A deletion on the larger of two devices that fully authorize each other, and every full
      round after it: the smaller one does not learn of it. */
  lemma {:induction false} LargerKeyUnheard(ids: IdParser, r: Descriptor, x: Device, p: Device)
    returns (init: Cluster, run: seq<Step>)
    requires KeyOf(ids, r).Some? && Less(p, x)
    ensures IsRun(ids, init, run) && AllInOrder(run)
    ensures var s := After(ids, init, run);
            && Announceable(ids, s, x, p, r)
            && forall later :: SpreadsUpwards(s, later) ==> !Tombstoned(later, p, KeyOf(ids, r).value)
  {
    var k := KeyOf(ids, r).value;
    var policy := BothAllow(x, p, r);
    BothAuthorized(ids, x, p, r);
    init := Start(policy);
    run := DeletedOn(ids, policy, x, k);
    forall later | SpreadsUpwards(After(ids, init, run), later) ensures !Tombstoned(later, p, k) {
      NotBelow(policy, x, p, k, later);
    }
  }

  lemma NotBelow(policy: Policy, x: Device, p: Device, k: Key, later: Cluster)
    requires Less(p, x) && SpreadsUpwards(Deleted(policy, x, k, multiset{}), later)
    ensures !Tombstoned(later, p, k)
  {
    var s := Deleted(policy, x, k, multiset{});
    LessIrreflexive(p);
    LessExactlyOne(p, x);
    assert forall e :: Tombstoned(s, e, k) ==> e == x;
    assert Tombstoned(later, p, k) ==> HeldUpTo(s, p, k);
  }
}
