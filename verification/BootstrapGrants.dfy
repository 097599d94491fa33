/** Device bootstrap: the registry of one-time grants, and the sessions that reserve a grant,
    use it and give it back, interleaved at the registry's lock. */
module BootstrapGrants {
  import opened Text

  type GrantId = string // one character per byte
  type Peer = nat
  type SessionId = nat

  const GRANT_TTL := 900
  const MAX_GRANT_BYTES := 256

  datatype Grant = Grant(endpoint: Peer, device: nat, codeHash: seq<nat>, expiresAt: nat, inUse: bool)

  type Grants = map<GrantId, Grant>

  // ---------------------------------------------------------------- the registry

  function Pruned(grants: Grants, now: nat): Grants {
    map id | id in grants && grants[id].expiresAt > now :: grants[id]
  }

  function NewGrant(endpoint: Peer, device: nat, codeHash: seq<nat>, now: nat): Grant {
    Grant(endpoint, device, codeHash, now + GRANT_TTL, false)
  }

  predicate Reservable(grants: Grants, id: GrantId, peer: Peer, now: nat) {
    && id in grants
    && grants[id].expiresAt > now
    && grants[id].endpoint == peer
    && !grants[id].inUse
  }

  function Reserved(grants: Grants, id: GrantId, peer: Peer, now: nat): Grants {
    if Reservable(grants, id, peer, now) then Pruned(grants, now)[id := grants[id].(inUse := true)]
    else Pruned(grants, now)
  }

  function Finished(grants: Grants, id: GrantId, peer: Peer, success: bool): Grants {
    if id in grants && grants[id].endpoint == peer then
      if success then grants - {id} else grants[id := grants[id].(inUse := false)]
    else grants
  }

  class BootstrapRegistry {
    var grants: Grants

    constructor ()
      ensures grants == map[]
    {
      grants := map[];
    }

    method Register(id: GrantId, endpoint: Peer, device: nat, codeHash: seq<nat>, now: nat) returns (grant: Grant)
      modifies this
      ensures grant == NewGrant(endpoint, device, codeHash, now)
      ensures grants == Pruned(old(grants), now)[id := grant]
      ensures Reservable(grants, id, endpoint, now)
    {
      grant := Grant(endpoint, device, codeHash, now + GRANT_TTL, false);
      grants := map g | g in grants && grants[g].expiresAt > now :: grants[g];
      grants := grants[id := grant];
    }

    method Get(id: GrantId) returns (grant: Option<Grant>)
      ensures grant == if id in grants then Some(grants[id]) else None
    {
      if id in grants { return Some(grants[id]); }
      return None;
    }

    method Reserve(id: GrantId, peer: Peer, now: nat) returns (granted: bool)
      modifies this
      ensures granted <==> Reservable(old(grants), id, peer, now)
      ensures grants == Reserved(old(grants), id, peer, now)
    {
      grants := map g | g in grants && grants[g].expiresAt > now :: grants[g];
      if id !in grants { return false; }
      var grant := grants[id];
      if grant.endpoint != peer || grant.inUse { return false; }
      grants := grants[id := grant.(inUse := true)];
      return true;
    }

    method Finish(id: GrantId, peer: Peer, success: bool)
      modifies this
      ensures grants == Finished(old(grants), id, peer, success)
    {
      if success {
        if id in grants && grants[id].endpoint == peer { grants := grants - {id}; }
      } else if id in grants && grants[id].endpoint == peer {
        grants := grants[id := grants[id].(inUse := false)];
      }
    }
  }

  datatype HandleError = InvalidGrant | Denied | ApprovalFailed | SendFailed | SyncFailed

  predicate ValidLength(id: GrantId) {
    0 < |id| <= MAX_GRANT_BYTES
  }

  /** One session undisturbed by others. `approved`, `sent` and `synced` are what the device
      repository, the stream and the synchronization say. A session that fails leaves the
      registry as a prune would; only a full success uses the grant up. */
  method Handle(registry: BootstrapRegistry, peer: Peer, id: GrantId, approved: bool, sent: bool, synced: bool,
                now: nat)
    returns (r: Result<(), HandleError>)
    modifies registry
    ensures r.Ok? <==> ValidLength(id) && Reservable(old(registry.grants), id, peer, now) && approved && sent && synced
    ensures r == Err(InvalidGrant) <==> !ValidLength(id)
    ensures r == Err(Denied) <==> ValidLength(id) && !Reservable(old(registry.grants), id, peer, now)
    ensures registry.grants ==
            if !ValidLength(id) then old(registry.grants)
            else if r.Ok? then Pruned(old(registry.grants), now) - {id}
            else Pruned(old(registry.grants), now)
  {
    if |id| == 0 || |id| > MAX_GRANT_BYTES { return Err(InvalidGrant); }
    var granted := registry.Reserve(id, peer, now);
    if !granted { return Err(Denied); }
    var grant := registry.Get(id);
    if grant == None || !approved {
      registry.Finish(id, peer, false);
      return Err(ApprovalFailed);
    }
    if !sent {
      registry.Finish(id, peer, false);
      return Err(SendFailed);
    }
    registry.Finish(id, peer, synced);
    return if synced then Ok(()) else Err(SyncFailed);
  }

  // ---------------------------------------------------------------- interleaved sessions

  datatype Phase =
    | HasReservation
    | Approving(grant: Grant) // what `get` returned
    | WasApproved
    | Acknowledged
    | Closing(ok: bool)       // about to call `finish`

  datatype Session =
    | Refused
    | Holding(grant: GrantId, peer: Peer, phase: Phase)
    | Released(grant: GrantId, ok: bool)

  /** `issued` remembers every registration as it was made. */
  datatype World = World(now: nat, grants: Grants, issued: Grants, sessions: map<SessionId, Session>)

  const INIT := World(0, map[], map[], map[])

  datatype Step =
    | Wait(until: nat)
    | Register(id: GrantId, endpoint: Peer, device: nat, codeHash: seq<nat>)
    | Accept(s: SessionId, peer: Peer, id: GrantId)
    | Get(s: SessionId)
    | Approve(s: SessionId, ok: bool)
    | Acknowledge(s: SessionId, ok: bool)
    | Synchronize(s: SessionId, ok: bool)
    | Finish(s: SessionId)

  predicate IsHolding(w: World, s: SessionId) {
    s in w.sessions && w.sessions[s].Holding?
  }

  /** Which ids may be registered: only new ones, any that no session holds, or any at all. */
  datatype Guard = Fresh | Unheld | Any

  predicate Enabled(guard: Guard, w: World, step: Step) {
    match step
    case Wait(until) => w.now <= until
    case Register(id, _, _, _) => guard == Any || (if guard == Fresh then id !in w.issued else !Held(w, id))
    case Accept(s, _, _) => s !in w.sessions
    case Get(s) => IsHolding(w, s) && w.sessions[s].phase.HasReservation?
    case Approve(s, _) => IsHolding(w, s) && w.sessions[s].phase.Approving?
    case Acknowledge(s, _) => IsHolding(w, s) && w.sessions[s].phase.WasApproved?
    case Synchronize(s, _) => IsHolding(w, s) && w.sessions[s].phase.Acknowledged?
    case Finish(s) => IsHolding(w, s) && w.sessions[s].phase.Closing?
  }

  function MoveTo(w: World, s: SessionId, phase: Phase): World
    requires s in w.sessions && w.sessions[s].Holding?
  {
    w.(sessions := w.sessions[s := w.sessions[s].(phase := phase)])
  }

  function AfterAccept(w: World, s: SessionId, peer: Peer, id: GrantId): World {
    if !ValidLength(id) then w.(sessions := w.sessions[s := Refused])
    else w.(grants := Reserved(w.grants, id, peer, w.now),
            sessions := w.sessions[s :=
              if Reservable(w.grants, id, peer, w.now) then Holding(id, peer, HasReservation) else Refused])
  }

  function AfterFinish(w: World, s: SessionId): World
    requires s in w.sessions && w.sessions[s].Holding? && w.sessions[s].phase.Closing?
  {
    var h := w.sessions[s];
    w.(grants := Finished(w.grants, h.grant, h.peer, h.phase.ok),
       sessions := w.sessions[s := Released(h.grant, h.phase.ok)])
  }

  function Apply(w: World, step: Step): World
    requires Enabled(Any, w, step)
  {
    match step
    case Wait(until) => w.(now := until)
    case Register(id, endpoint, device, codeHash) =>
      var grant := NewGrant(endpoint, device, codeHash, w.now);
      w.(grants := Pruned(w.grants, w.now)[id := grant], issued := w.issued[id := grant])
    case Accept(s, peer, id) => AfterAccept(w, s, peer, id)
    case Get(s) =>
      var id := w.sessions[s].grant;
      MoveTo(w, s, if id in w.grants then Approving(w.grants[id]) else Closing(false))
    case Approve(s, ok) => MoveTo(w, s, if ok then WasApproved else Closing(false))
    case Acknowledge(s, ok) => MoveTo(w, s, if ok then Acknowledged else Closing(false))
    case Synchronize(s, ok) => MoveTo(w, s, Closing(ok))
    case Finish(s) => AfterFinish(w, s)
  }

  predicate IsRunFrom(guard: Guard, start: World, run: seq<Step>) {
    run == [] ||
    (IsRunFrom(guard, start, run[..|run| - 1]) &&
     Enabled(guard, AfterFrom(start, run[..|run| - 1]), run[|run| - 1]))
  }

  function AfterFrom(start: World, run: seq<Step>): World {
    if run == [] then start
    else
      var w := AfterFrom(start, run[..|run| - 1]);
      if Enabled(Any, w, run[|run| - 1]) then Apply(w, run[|run| - 1]) else w
  }

  predicate IsRun(guard: Guard, run: seq<Step>) {
    IsRunFrom(guard, INIT, run)
  }

  function After(run: seq<Step>): World {
    AfterFrom(INIT, run)
  }

  // ---------------------------------------------------------------- the invariant

  predicate Holds(w: World, s: SessionId, id: GrantId) {
    s in w.sessions && w.sessions[s].Holding? && w.sessions[s].grant == id
  }

  predicate Redeemed(w: World, id: GrantId) {
    exists s :: s in w.sessions && w.sessions[s] == Released(id, true)
  }

  predicate Held(w: World, id: GrantId) {
    exists s :: s in w.sessions && Holds(w, s, id)
  }

  predicate Exclusive(w: World) {
    forall s, t :: s in w.sessions && t in w.sessions && s != t && w.sessions[s].Holding? && w.sessions[t].Holding? ==>
      w.sessions[s].grant != w.sessions[t].grant
  }

  predicate HoldersMarked(w: World) {
    forall s :: s in w.sessions && w.sessions[s].Holding? ==>
      var h := w.sessions[s];
      h.grant in w.issued && w.issued[h.grant].endpoint == h.peer &&
      (h.grant in w.grants ==> w.grants[h.grant].inUse)
  }

  predicate GrantsWereIssued(w: World) {
    forall id :: id in w.grants ==> id in w.issued && w.grants[id].(inUse := false) == w.issued[id]
  }

  predicate MarkedAreHeld(w: World) {
    forall id :: id in w.grants && w.grants[id].inUse ==> Held(w, id)
  }

  predicate RedeemedAreGone(w: World) {
    forall s :: s in w.sessions && w.sessions[s].Released? && w.sessions[s].ok ==>
      w.sessions[s].grant in w.issued && w.sessions[s].grant !in w.grants
  }

  predicate NoneHoldsRedeemed(w: World) {
    forall s, t :: s in w.sessions && t in w.sessions && w.sessions[s].Holding? && w.sessions[t].Released? &&
                   w.sessions[t].ok ==>
      w.sessions[s].grant != w.sessions[t].grant
  }

  predicate UnspentAreKept(w: World) {
    forall id :: id in w.issued && w.issued[id].expiresAt > w.now && !Redeemed(w, id) ==> id in w.grants
  }

  predicate Inv(w: World) {
    Exclusive(w) && HoldersMarked(w) && GrantsWereIssued(w) && MarkedAreHeld(w) && RedeemedAreGone(w) &&
    NoneHoldsRedeemed(w) && UnspentAreKept(w)
  }

  /** What a session step other than accepting and finishing leaves alone. */
  predicate OnlyPhase(w: World, v: World, s: SessionId) {
    && v.now == w.now && v.grants == w.grants && v.issued == w.issued
    && v.sessions.Keys == w.sessions.Keys
    && s in w.sessions && w.sessions[s].Holding? && v.sessions[s].Holding?
    && v.sessions[s].grant == w.sessions[s].grant && v.sessions[s].peer == w.sessions[s].peer
    && forall t :: t in w.sessions && t != s ==> v.sessions[t] == w.sessions[t]
  }

  lemma PhaseKeepsInv(w: World, v: World, s: SessionId)
    requires Inv(w) && OnlyPhase(w, v, s)
    ensures Inv(v)
  {
    assert forall t, id :: Holds(v, t, id) <==> Holds(w, t, id);
    assert forall id :: Held(w, id) ==> Held(v, id);
    assert forall id :: Redeemed(w, id) ==> Redeemed(v, id);
  }

  lemma WaitKeepsInv(w: World, until: nat)
    requires Inv(w) && w.now <= until
    ensures Inv(w.(now := until))
  {
    var v := w.(now := until);
    assert forall id :: Held(w, id) ==> Held(v, id);
    assert forall id :: Redeemed(w, id) ==> Redeemed(v, id);
  }

  lemma PruneKeepsInv(w: World)
    requires Inv(w)
    ensures Inv(w.(grants := Pruned(w.grants, w.now)))
  {
    var v := w.(grants := Pruned(w.grants, w.now));
    assert forall id :: Held(w, id) ==> Held(v, id);
    assert forall id :: Redeemed(w, id) ==> Redeemed(v, id);
  }

  lemma AddKeepsInv(w: World, id: GrantId, grant: Grant)
    requires Inv(w) && id !in w.issued && !grant.inUse
    ensures Inv(w.(grants := w.grants[id := grant], issued := w.issued[id := grant]))
  {
    var v := w.(grants := w.grants[id := grant], issued := w.issued[id := grant]);
    assert forall id :: Held(w, id) ==> Held(v, id);
    assert forall id :: Redeemed(w, id) ==> Redeemed(v, id);
  }

  lemma RegisterKeepsInv(w: World, id: GrantId, grant: Grant)
    requires Inv(w) && id !in w.issued && !grant.inUse
    ensures Inv(w.(grants := Pruned(w.grants, w.now)[id := grant], issued := w.issued[id := grant]))
  {
    PruneKeepsInv(w);
    AddKeepsInv(w.(grants := Pruned(w.grants, w.now)), id, grant);
  }

  lemma SessionAdded(w: World, v: World)
    requires forall t :: t in w.sessions ==> t in v.sessions && v.sessions[t] == w.sessions[t]
    ensures forall g :: Held(w, g) ==> Held(v, g)
    ensures forall g :: Redeemed(w, g) ==> Redeemed(v, g)
  {
    forall g | Held(w, g) ensures Held(v, g) {
      var t :| t in w.sessions && Holds(w, t, g);
      assert Holds(v, t, g);
    }
    forall g | Redeemed(w, g) ensures Redeemed(v, g) {
      var t :| t in w.sessions && w.sessions[t] == Released(g, true);
      assert v.sessions[t] == Released(g, true);
    }
  }

  lemma RefuseKeepsInv(w: World, s: SessionId)
    requires Inv(w) && s !in w.sessions
    ensures Inv(w.(sessions := w.sessions[s := Refused]))
  {
    SessionAdded(w, w.(sessions := w.sessions[s := Refused]));
  }

  lemma GrantKeepsInv(w: World, s: SessionId, peer: Peer, id: GrantId)
    requires Inv(w) && s !in w.sessions && Reservable(w.grants, id, peer, w.now)
    ensures Inv(w.(grants := w.grants[id := w.grants[id].(inUse := true)],
                   sessions := w.sessions[s := Holding(id, peer, HasReservation)]))
  {
    var v := w.(grants := w.grants[id := w.grants[id].(inUse := true)],
                sessions := w.sessions[s := Holding(id, peer, HasReservation)]);
    SessionAdded(w, v);
    assert Holds(v, s, id);
  }

  lemma AcceptKeepsInv(w: World, s: SessionId, peer: Peer, id: GrantId)
    requires Inv(w) && s !in w.sessions
    ensures Inv(AfterAccept(w, s, peer, id))
  {
    var pruned := w.(grants := Pruned(w.grants, w.now));
    PruneKeepsInv(w);
    RefuseKeepsInv(w, s);
    RefuseKeepsInv(pruned, s);
    if Reservable(w.grants, id, peer, w.now) {
      GrantKeepsInv(pruned, s, peer, id);
    }
  }

  lemma FinishKeepsInv(w: World, s: SessionId)
    requires Inv(w) && s in w.sessions && w.sessions[s].Holding? && w.sessions[s].phase.Closing?
    ensures Inv(AfterFinish(w, s))
  {
    var v := AfterFinish(w, s);
    var h := w.sessions[s];
    assert forall t :: t in w.sessions && t != s ==> v.sessions[t] == w.sessions[t];
    forall g | Held(w, g) && g != h.grant ensures Held(v, g) {
      var t :| t in w.sessions && Holds(w, t, g);
      assert Holds(v, t, g);
    }
    assert v.sessions[s] == Released(h.grant, h.phase.ok);
    forall g | Redeemed(w, g) ensures Redeemed(v, g) {
      var t :| t in w.sessions && w.sessions[t] == Released(g, true);
      assert v.sessions[t] == Released(g, true);
    }
  }

  lemma StepKeepsInv(w: World, step: Step)
    requires Inv(w) && Enabled(Fresh, w, step)
    ensures Inv(Apply(w, step))
  {
    match step
    case Wait(until) => WaitKeepsInv(w, until);
    case Register(id, endpoint, device, codeHash) =>
      RegisterKeepsInv(w, id, NewGrant(endpoint, device, codeHash, w.now));
    case Accept(s, peer, id) => AcceptKeepsInv(w, s, peer, id);
    case Get(s) => PhaseKeepsInv(w, Apply(w, step), s);
    case Approve(s, ok) => PhaseKeepsInv(w, Apply(w, step), s);
    case Acknowledge(s, ok) => PhaseKeepsInv(w, Apply(w, step), s);
    case Synchronize(s, ok) => PhaseKeepsInv(w, Apply(w, step), s);
    case Finish(s) => FinishKeepsInv(w, s);
  }

  lemma {:induction false} RunsKeepInv(run: seq<Step>)
    requires IsRun(Fresh, run)
    ensures Inv(After(run))
  {
    if run != [] {
      var before := run[..|run| - 1];
      RunsKeepInv(before);
      StepKeepsInv(After(before), run[|run| - 1]);
    }
  }

  // ---------------------------------------------------------------- what sessions can rely on

  /** While grant ids are fresh, a peer gets a reservation exactly when the grant was issued
      to it, has not expired or been redeemed, and no session holds it. */
  lemma ReservedIff(run: seq<Step>, s: SessionId, peer: Peer, id: GrantId)
    requires IsRun(Fresh, run) && s !in After(run).sessions
    ensures var w := After(run);
            IsRun(Fresh, run + [Accept(s, peer, id)]) &&
            (Holds(After(run + [Accept(s, peer, id)]), s, id) <==>
             ValidLength(id) && id in w.issued && w.issued[id].endpoint == peer && w.issued[id].expiresAt > w.now &&
             !Redeemed(w, id) && !Held(w, id))
  {
    RunsKeepInv(run);
    var longer := run + [Accept(s, peer, id)];
    assert longer[..|longer| - 1] == run;
    var w := After(run);
    assert After(longer) == AfterAccept(w, s, peer, id);
    if Held(w, id) && id in w.grants {
      var t :| t in w.sessions && Holds(w, t, id);
      assert w.grants[id].inUse;
    }
  }

  /** Once expired or redeemed, always so. */
  predicate Spent(w: World, id: GrantId) {
    id in w.issued && (w.issued[id].expiresAt <= w.now || Redeemed(w, id))
  }

  lemma StepKeepsSpent(w: World, step: Step, id: GrantId)
    requires Enabled(Fresh, w, step) && Spent(w, id)
    ensures Spent(Apply(w, step), id)
  {
    var v := Apply(w, step);
    assert v.now >= w.now && v.issued[id] == w.issued[id];
    assert forall t :: t in w.sessions && w.sessions[t].Released? ==> v.sessions[t] == w.sessions[t];
    if Redeemed(w, id) {
      var t :| t in w.sessions && w.sessions[t] == Released(id, true);
      assert v.sessions[t] == Released(id, true);
    }
  }

  lemma {:induction false} SpentStays(run: seq<Step>, longer: seq<Step>, id: GrantId)
    requires IsRun(Fresh, longer) && run <= longer && Spent(After(run), id)
    ensures Spent(After(longer), id)
    decreases |longer|
  {
    if |longer| > |run| {
      var before := longer[..|longer| - 1];
      SpentStays(run, before, id);
      StepKeepsSpent(After(before), longer[|longer| - 1], id);
    } else {
      assert run == longer;
    }
  }

  /** A grant that has expired or been redeemed is never reserved again. */
  lemma SpentForGood(run: seq<Step>, longer: seq<Step>, s: SessionId, peer: Peer, id: GrantId)
    requires IsRun(Fresh, longer) && run <= longer
    requires Spent(After(run), id) && s !in After(longer).sessions
    ensures !Holds(After(longer + [Accept(s, peer, id)]), s, id)
  {
    SpentStays(run, longer, id);
    ReservedIff(longer, s, peer, id);
  }

  /** When a session gives up, its grant is reservable again by its own peer unless it has
      expired meanwhile; when it succeeds, the grant is spent. */
  lemma FinishReturnsGrant(run: seq<Step>, s: SessionId)
    requires IsRun(Fresh, run) && Enabled(Fresh, After(run), Finish(s))
    ensures var w := After(run); var h := w.sessions[s]; var v := Apply(w, Finish(s));
            && h.grant in w.issued
            && v.sessions[s] == Released(h.grant, h.phase.ok)
            && (h.phase.ok ==> Spent(v, h.grant) && h.grant !in v.grants)
            && (!h.phase.ok ==> (Reservable(v.grants, h.grant, h.peer, v.now) <==> w.issued[h.grant].expiresAt > w.now))
  {
    RunsKeepInv(run);
    var w := After(run);
    var h := w.sessions[s];
    if h.phase.ok {
      assert AfterFinish(w, s).sessions[s] == Released(h.grant, true);
    } else {
      assert forall t :: t in w.sessions && w.sessions[t].Released? && w.sessions[t].ok ==>
        w.sessions[t].grant != h.grant;
    }
  }

  /** The record a session approves: as issued, for the session's own peer. */
  ghost predicate ApprovesIssued(w: World) {
    forall s :: IsHolding(w, s) && w.sessions[s].phase.Approving? ==>
      var h := w.sessions[s];
      h.grant in w.issued && h.phase.grant.(inUse := false) == w.issued[h.grant] && h.phase.grant.endpoint == h.peer
  }

  lemma StepApprovesIssued(w: World, step: Step)
    requires Inv(w) && ApprovesIssued(w) && Enabled(Fresh, w, step)
    ensures ApprovesIssued(Apply(w, step))
  {
    var v := Apply(w, step);
    assert forall id :: id in w.issued ==> id in v.issued && v.issued[id] == w.issued[id];
    if step.Wait? || step.Register? {
      assert v.sessions == w.sessions;
    } else {
      assert forall t :: t in w.sessions && t != step.s ==> v.sessions[t] == w.sessions[t];
    }
  }

  /** A session only ever approves the device its grant was issued for. */
  lemma {:induction false} RunsApproveIssued(run: seq<Step>)
    requires IsRun(Fresh, run)
    ensures ApprovesIssued(After(run))
  {
    if run != [] {
      var before := run[..|run| - 1];
      RunsApproveIssued(before);
      RunsKeepInv(before);
      StepApprovesIssued(After(before), run[|run| - 1]);
    }
  }

  // ---------------------------------------------------------------- every reservation is released

  predicate IsStepOf(step: Step, s: SessionId) {
    !step.Wait? && !step.Register? && step.s == s
  }

  function StepsOf(run: seq<Step>, s: SessionId): nat {
    if run == [] then 0
    else StepsOf(run[..|run| - 1], s) + if IsStepOf(run[|run| - 1], s) then 1 else 0
  }

  function FinishesOf(run: seq<Step>, s: SessionId): nat {
    if run == [] then 0
    else FinishesOf(run[..|run| - 1], s) + if run[|run| - 1] == Finish(s) then 1 else 0
  }

  /** How many steps a session still has before it at most. */
  function Left(w: World, s: SessionId): nat {
    if s !in w.sessions then 6
    else if !w.sessions[s].Holding? then 0
    else match w.sessions[s].phase
      case HasReservation => 5
      case Approving(_) => 4
      case WasApproved => 3
      case Acknowledged => 2
      case Closing(_) => 1
  }

  lemma StepLeavesLess(w: World, step: Step, s: SessionId)
    requires Enabled(Any, w, step)
    ensures IsStepOf(step, s) ==> Left(Apply(w, step), s) < Left(w, s)
    ensures !IsStepOf(step, s) ==> Left(Apply(w, step), s) == Left(w, s)
  {
    var v := Apply(w, step);
    if !IsStepOf(step, s) {
      assert s in v.sessions <==> s in w.sessions;
      assert s in w.sessions ==> v.sessions[s] == w.sessions[s];
    }
  }

  /** Whatever the other sessions do and however the calls turn out, a session that holds a
      reservation can go on, is over after at most six steps of its own, and when it is over
      it has called `finish` exactly once if it held one and never if it was refused. */
  lemma {:induction false} EverySessionReleases(guard: Guard, run: seq<Step>, s: SessionId)
    requires IsRun(guard, run)
    ensures var w := After(run);
            && StepsOf(run, s) + Left(w, s) <= 6
            && (s in w.sessions && w.sessions[s].Holding? ==>
                  exists step: Step :: IsStepOf(step, s) && Enabled(guard, w, step))
            && FinishesOf(run, s) == (if s in w.sessions && w.sessions[s].Released? then 1 else 0)
  {
    var w := After(run);
    if run != [] {
      var before := run[..|run| - 1];
      var step := run[|run| - 1];
      EverySessionReleases(guard, before, s);
      assert Enabled(Any, After(before), step);
      StepLeavesLess(After(before), step, s);
      FinishIsTheRelease(After(before), step, s);
    }
    if s in w.sessions && w.sessions[s].Holding? {
      var next := NextStep(guard, w, s);
    }
  }

  lemma FinishIsTheRelease(w: World, step: Step, s: SessionId)
    requires Enabled(Any, w, step)
    ensures var v := Apply(w, step);
            (s in v.sessions && v.sessions[s].Released?) <==>
            (step == Finish(s) || (s in w.sessions && w.sessions[s].Released?))
    ensures step == Finish(s) ==> !w.sessions[s].Released?
  {
    var v := Apply(w, step);
    if !IsStepOf(step, s) {
      assert s in v.sessions <==> s in w.sessions;
      assert s in w.sessions ==> v.sessions[s] == w.sessions[s];
    }
  }

  lemma NextStep(guard: Guard, w: World, s: SessionId) returns (step: Step)
    requires s in w.sessions && w.sessions[s].Holding?
    ensures IsStepOf(step, s) && Enabled(guard, w, step)
  {
    match w.sessions[s].phase
    case HasReservation => step := Get(s);
    case Approving(_) => step := Approve(s, true);
    case WasApproved => step := Acknowledge(s, true);
    case Acknowledged => step := Synchronize(s, true);
    case Closing(_) => step := Finish(s);
  }

  // ---------------------------------------------------------------- when a session succeeds

  /** The session is over, or about to be, with success. */
  predicate Succeeds(w: World, s: SessionId) {
    s in w.sessions &&
    if w.sessions[s].Holding? then w.sessions[s].phase == Closing(true)
    else w.sessions[s].Released? && w.sessions[s].ok
  }

  predicate IsAcknowledged(w: World, s: SessionId) {
    Succeeds(w, s) || (s in w.sessions && w.sessions[s].Holding? && w.sessions[s].phase.Acknowledged?)
  }

  predicate IsApproved(w: World, s: SessionId) {
    IsAcknowledged(w, s) || (s in w.sessions && w.sessions[s].Holding? && w.sessions[s].phase.WasApproved?)
  }

  lemma StepSucceeds(w: World, step: Step, s: SessionId)
    requires Enabled(Any, w, step)
    ensures Succeeds(Apply(w, step), s) <==> Succeeds(w, s) || step == Synchronize(s, true)
    ensures step == Synchronize(s, true) ==> IsAcknowledged(w, s)
    ensures IsAcknowledged(Apply(w, step), s) ==> IsAcknowledged(w, s) || step == Acknowledge(s, true)
    ensures step == Acknowledge(s, true) ==> IsApproved(w, s)
    ensures IsApproved(Apply(w, step), s) ==> IsApproved(w, s) || step == Approve(s, true)
  {
    var v := Apply(w, step);
    if !IsStepOf(step, s) {
      assert s in v.sessions <==> s in w.sessions;
      assert s in w.sessions ==> v.sessions[s] == w.sessions[s];
    }
  }

  lemma {:induction false} RunSucceeds(guard: Guard, run: seq<Step>, s: SessionId)
    requires IsRun(guard, run)
    ensures Succeeds(After(run), s) <==> Synchronize(s, true) in run
    ensures IsAcknowledged(After(run), s) ==> Acknowledge(s, true) in run
    ensures IsApproved(After(run), s) ==> Approve(s, true) in run
    ensures Synchronize(s, true) in run ==> Acknowledge(s, true) in run && Approve(s, true) in run
  {
    if run != [] {
      var before, step := run[..|run| - 1], run[|run| - 1];
      RunSucceeds(guard, before, s);
      assert Enabled(Any, After(before), step);
      StepSucceeds(After(before), step, s);
      assert run == before + [step];
    }
  }

  /** In every interleaving a session uses its grant up exactly when its synchronization succeeded,
      and then its device was approved and acknowledged before. */
  lemma SuccessIff(guard: Guard, run: seq<Step>, s: SessionId)
    requires IsRun(guard, run) && s in After(run).sessions && After(run).sessions[s].Released?
    ensures After(run).sessions[s].ok <==> Synchronize(s, true) in run
    ensures After(run).sessions[s].ok ==> Approve(s, true) in run && Acknowledge(s, true) in run
  {
    RunSucceeds(guard, run, s);
  }

  // ---------------------------------------------------------------- which registrations are safe

  /** No two sessions hold one grant, and a held grant that is still recorded is marked. */
  predicate ExclusiveInv(w: World) {
    && Exclusive(w)
    && forall s :: s in w.sessions && w.sessions[s].Holding? ==>
         var id := w.sessions[s].grant; ValidLength(id) && (id in w.grants ==> w.grants[id].inUse)
  }

  lemma AcceptKeepsExclusive(w: World, s: SessionId, peer: Peer, id: GrantId)
    requires ExclusiveInv(w) && s !in w.sessions
    ensures ExclusiveInv(AfterAccept(w, s, peer, id))
  {
    var v := AfterAccept(w, s, peer, id);
    assert forall t :: t in w.sessions ==> t in v.sessions && v.sessions[t] == w.sessions[t];
    assert forall g :: g in v.grants ==> g in w.grants && (w.grants[g].inUse ==> v.grants[g].inUse);
  }

  lemma FinishKeepsExclusive(w: World, s: SessionId)
    requires ExclusiveInv(w) && IsHolding(w, s) && w.sessions[s].phase.Closing?
    ensures ExclusiveInv(AfterFinish(w, s))
  {
    var v := AfterFinish(w, s);
    assert forall t :: t in w.sessions && t != s ==> v.sessions[t] == w.sessions[t];
    assert forall g :: g in v.grants && g != w.sessions[s].grant ==> g in w.grants && v.grants[g] == w.grants[g];
  }

  lemma RegisterKeepsExclusive(w: World, step: Step)
    requires ExclusiveInv(w) && step.Register? && !Held(w, step.id)
    ensures ExclusiveInv(Apply(w, step))
  {
    assert forall s :: s in w.sessions && w.sessions[s].Holding? && w.sessions[s].grant == step.id ==>
      Holds(w, s, step.id);
  }

  lemma StepKeepsExclusive(w: World, step: Step)
    requires ExclusiveInv(w) && Enabled(Unheld, w, step)
    ensures ExclusiveInv(Apply(w, step))
  {
    match step
    case Register(_, _, _, _) => RegisterKeepsExclusive(w, step);
    case Accept(s, peer, id) => AcceptKeepsExclusive(w, s, peer, id);
    case Finish(s) => FinishKeepsExclusive(w, s);
    case Wait(_) =>
    case _ =>
      var v := Apply(w, step);
      assert forall t :: t in w.sessions && t != step.s ==> v.sessions[t] == w.sessions[t];
      assert v.grants == w.grants && v.sessions[step.s].grant == w.sessions[step.s].grant;
  }

  lemma {:induction false} RunsKeepExclusive(start: World, run: seq<Step>)
    requires ExclusiveInv(start) && IsRunFrom(Unheld, start, run)
    ensures ExclusiveInv(AfterFrom(start, run))
  {
    if run != [] {
      var before := run[..|run| - 1];
      RunsKeepExclusive(start, before);
      StepKeepsExclusive(AfterFrom(start, before), run[|run| - 1]);
    }
  }

  /** A grant id registered again while a session holds it goes to a second session. */
  lemma HeldTwice(w: World, step: Step) returns (more: seq<Step>)
    requires ExclusiveInv(w) && step.Register? && Held(w, step.id)
    ensures IsRunFrom(Unheld, Apply(w, step), more) && !Exclusive(AfterFrom(Apply(w, step), more))
  {
    var s :| s in w.sessions && Holds(w, s, step.id);
    var t := Unused(w.sessions.Keys);
    var v := Apply(w, step);
    var accept := Accept(t, step.endpoint, step.id);
    more := [accept];
    assert more[..0] == [];
    assert AfterFrom(v, []) == v && IsRunFrom(Unheld, v, []);
    var after := AfterAccept(v, t, step.endpoint, step.id);
    assert AfterFrom(v, more) == after;
    assert after.sessions[t] == Holding(step.id, step.endpoint, HasReservation) && after.sessions[s] == w.sessions[s];
  }

  /** In every state reachable while no held id is registered again, registering an id is safe,
      that is, no two sessions hold one grant in any such continuation, exactly when no session
      holds the id. */
  lemma RegisterSafeIff(run: seq<Step>, step: Step)
    requires IsRun(Unheld, run) && step.Register?
    ensures var w := After(run);
            (forall more :: IsRunFrom(Unheld, Apply(w, step), more) ==> Exclusive(AfterFrom(Apply(w, step), more))) <==>
            !Held(w, step.id)
  {
    var w := After(run);
    RunsKeepExclusive(INIT, run);
    if Held(w, step.id) {
      var more := HeldTwice(w, step);
    } else {
      RegisterKeepsExclusive(w, step);
      forall more | IsRunFrom(Unheld, Apply(w, step), more) ensures Exclusive(AfterFrom(Apply(w, step), more)) {
        RunsKeepExclusive(Apply(w, step), more);
      }
    }
  }
}
