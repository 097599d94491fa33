/** Deriving keys along paths and checking derived keys, over an arbitrary key system:
    single-step derivation is a partial function about which nothing is assumed. */
module KeyDerivation {
  import opened Text

  datatype ChildNumber = ChildNumber(index: nat, hardened: bool)

  type Path = seq<ChildNumber>

  /** Extended private and public keys, and what single steps do with them. A private key's
      scalar and a public key's point leave out the chain code. */
  datatype KeySystem<!XPrv, !XPub, !Scalar, !Point> = KeySystem(
    derivePrivate: (XPrv, ChildNumber) -> Option<XPrv>,
    derivePublic: (XPub, ChildNumber) -> Option<XPub>,
    publicKey: XPrv -> XPub,
    scalar: XPrv -> Scalar,
    point: XPub -> Point)

  datatype KeyError = ShorterThanParent | NotBelowParent | StepFailed

  datatype DerivedKey<XPrv> = DerivedKey(key: XPrv, path: Path)

  datatype MasterKey<XPrv> = MasterKey(key: XPrv)

  /** `From<MasterKey> for DerivedKey`. */
  function FromMaster<XPrv>(master: MasterKey<XPrv>): DerivedKey<XPrv> {
    DerivedKey(master.key, [])
  }

  // ---------------------------------------------------------------- specification

  function Along<XPrv, XPub, Scalar, Point>(sys: KeySystem<XPrv, XPub, Scalar, Point>, key: XPrv,
                                            path: Path): Option<XPrv>
    decreases |path|
  {
    if path == [] then Some(key)
    else match sys.derivePrivate(key, path[0])
      case None => None
      case Some(next) => Along(sys, next, path[1..])
  }

  /** The public derivation along a path; a hardened step has none. */
  function PublicAlong<XPrv, XPub, Scalar, Point>(sys: KeySystem<XPrv, XPub, Scalar, Point>, key: XPub,
                                                  path: Path): Option<XPub>
    decreases |path|
  {
    if path == [] then Some(key)
    else if path[0].hardened then None
    else match sys.derivePublic(key, path[0])
      case None => None
      case Some(next) => PublicAlong(sys, next, path[1..])
  }

  function Derived<XPrv, XPub, Scalar, Point>(sys: KeySystem<XPrv, XPub, Scalar, Point>, k: DerivedKey<XPrv>,
                                              path: Path)
    : Result<DerivedKey<XPrv>, KeyError>
  {
    if |path| < |k.path| then Err(ShorterThanParent)
    else if !(k.path <= path) then Err(NotBelowParent)
    else match Along(sys, k.key, path[|k.path|..])
      case None => Err(StepFailed)
      case Some(key) => Ok(DerivedKey(key, path))
  }

  function Verified<XPrv, XPub, Scalar(==), Point>(sys: KeySystem<XPrv, XPub, Scalar, Point>, k: DerivedKey<XPrv>,
                                                   child: DerivedKey<XPrv>)
    : Result<bool, KeyError>
  {
    if !(k.path <= child.path) then Ok(false)
    else match Along(sys, k.key, child.path[|k.path|..])
      case None => Err(StepFailed)
      case Some(key) => Ok(sys.scalar(key) == sys.scalar(child.key))
  }

  predicate EcdsaVerified<XPrv, XPub, Scalar, Point(==)>(sys: KeySystem<XPrv, XPub, Scalar, Point>,
                                                         k: DerivedKey<XPrv>, path: Path, point: Point) {
    && k.path < path
    && var xpub := PublicAlong(sys, sys.publicKey(k.key), path[|k.path|..]);
       xpub.Some? && sys.point(xpub.value) == point
  }

  // ---------------------------------------------------------------- the loops

  lemma {:induction false} AlongSnoc<XPrv, XPub, Scalar, Point>(sys: KeySystem<XPrv, XPub, Scalar, Point>, key: XPrv,
                                                                path: Path, c: ChildNumber)
    ensures Along(sys, key, path + [c]) ==
            match Along(sys, key, path) case None => None case Some(k) => sys.derivePrivate(k, c)
    decreases |path|
  {
    if path == [] {
      assert ([] + [c])[1..] == [];
    } else {
      assert (path + [c])[1..] == path[1..] + [c];
      match sys.derivePrivate(key, path[0])
      case None =>
      case Some(next) => AlongSnoc(sys, next, path[1..], c);
    }
  }

  lemma {:induction false} PublicAlongSnoc<XPrv, XPub, Scalar, Point>(sys: KeySystem<XPrv, XPub, Scalar, Point>,
      key: XPub, path: Path, c: ChildNumber)
    ensures PublicAlong(sys, key, path + [c]) ==
            match PublicAlong(sys, key, path)
            case None => None
            case Some(k) => if c.hardened then None else sys.derivePublic(k, c)
    decreases |path|
  {
    if path == [] {
      assert ([] + [c])[1..] == [];
    } else {
      assert (path + [c])[1..] == path[1..] + [c];
      if !path[0].hardened {
        match sys.derivePublic(key, path[0])
        case None =>
        case Some(next) => PublicAlongSnoc(sys, next, path[1..], c);
      }
    }
  }

  lemma {:induction false} AlongConcat<XPrv, XPub, Scalar, Point>(sys: KeySystem<XPrv, XPub, Scalar, Point>, key: XPrv,
                                                                  p: Path, q: Path)
    ensures Along(sys, key, p + q) == match Along(sys, key, p) case None => None case Some(k) => Along(sys, k, q)
    decreases |p|
  {
    if p == [] {
      assert p + q == q;
    } else {
      assert (p + q)[1..] == p[1..] + q;
      match sys.derivePrivate(key, p[0])
      case None =>
      case Some(next) => AlongConcat(sys, next, p[1..], q);
    }
  }

  lemma {:induction false} PublicAlongConcat<XPrv, XPub, Scalar, Point>(sys: KeySystem<XPrv, XPub, Scalar, Point>,
      key: XPub, p: Path, q: Path)
    ensures PublicAlong(sys, key, p + q) ==
            match PublicAlong(sys, key, p) case None => None case Some(k) => PublicAlong(sys, k, q)
    decreases |p|
  {
    if p == [] {
      assert p + q == q;
    } else {
      assert (p + q)[1..] == p[1..] + q;
      if !p[0].hardened {
        match sys.derivePublic(key, p[0])
        case None =>
        case Some(next) => PublicAlongConcat(sys, next, p[1..], q);
      }
    }
  }

  lemma Halves(steps: Path, i: nat)
    requires i < |steps|
    ensures steps[..i + 1] == steps[..i] + [steps[i]]
    ensures steps[..i + 1] + steps[i + 1..] == steps
  {
  }

  /** The loop shared by `derive`, `derive_from_derivation_path` and `verify_derived_key`. */
  method DeriveSteps<XPrv, XPub, Scalar, Point>(sys: KeySystem<XPrv, XPub, Scalar, Point>, start: XPrv, steps: Path)
    returns (r: Option<XPrv>)
    ensures r == Along(sys, start, steps)
  {
    var key := start;
    for i := 0 to |steps|
      invariant Along(sys, start, steps[..i]) == Some(key)
    {
      AlongSnoc(sys, start, steps[..i], steps[i]);
      Halves(steps, i);
      var next := sys.derivePrivate(key, steps[i]);
      if next == None {
        AlongConcat(sys, start, steps[..i + 1], steps[i + 1..]);
        return None;
      }
      key := next.value;
    }
    Whole(steps);
    return Some(key);
  }

  /** The loop shared by the two `verify_ecdsa_key`: stops at a hardened or failing step. */
  method DerivePublicSteps<XPrv, XPub, Scalar, Point>(sys: KeySystem<XPrv, XPub, Scalar, Point>, start: XPub,
                                                      steps: Path)
    returns (r: Option<XPub>)
    ensures r == PublicAlong(sys, start, steps)
  {
    var xpub := start;
    for i := 0 to |steps|
      invariant PublicAlong(sys, start, steps[..i]) == Some(xpub)
    {
      PublicAlongSnoc(sys, start, steps[..i], steps[i]);
      PublicAlongConcat(sys, start, steps[..i + 1], steps[i + 1..]);
      Halves(steps, i);
      if steps[i].hardened { return None; }
      var next := sys.derivePublic(xpub, steps[i]);
      if next == None { return None; }
      xpub := next.value;
    }
    Whole(steps);
    return Some(xpub);
  }

  /** `derive_from_child_number`: one step is a derivation to the path one longer. */
  method DeriveFromChildNumber<XPrv, XPub, Scalar, Point>(sys: KeySystem<XPrv, XPub, Scalar, Point>,
                                                          k: DerivedKey<XPrv>, c: ChildNumber)
    returns (r: Result<DerivedKey<XPrv>, KeyError>)
    ensures r == Derived(sys, k, k.path + [c])
  {
    AlongSnoc(sys, k.key, [], c);
    assert (k.path + [c])[|k.path|..] == [] + [c];
    var key := sys.derivePrivate(k.key, c);
    if key == None { return Err(StepFailed); }
    return Ok(DerivedKey(key.value, k.path + [c]));
  }

  method DeriveFromDerivationPath<XPrv, XPub, Scalar, Point>(sys: KeySystem<XPrv, XPub, Scalar, Point>,
                                                             k: DerivedKey<XPrv>, path: Path)
    returns (r: Result<DerivedKey<XPrv>, KeyError>)
    ensures r == Derived(sys, k, path)
  {
    if |path| < |k.path| { return Err(ShorterThanParent); }
    if !(k.path <= path) { return Err(NotBelowParent); }
    var key := DeriveSteps(sys, k.key, path[|k.path|..]);
    if key == None { return Err(StepFailed); }
    return Ok(DerivedKey(key.value, path));
  }

  method VerifyDerivedKey<XPrv, XPub, Scalar(==), Point>(sys: KeySystem<XPrv, XPub, Scalar, Point>,
                                                         k: DerivedKey<XPrv>, child: DerivedKey<XPrv>)
    returns (r: Result<bool, KeyError>)
    ensures r == Verified(sys, k, child)
  {
    if |child.path| < |k.path| { return Ok(false); }
    if !(k.path <= child.path) { return Ok(false); }
    var key := DeriveSteps(sys, k.key, child.path[|k.path|..]);
    if key == None { return Err(StepFailed); }
    return Ok(sys.scalar(key.value) == sys.scalar(child.key));
  }

  method VerifyEcdsaKey<XPrv, XPub, Scalar, Point(==)>(sys: KeySystem<XPrv, XPub, Scalar, Point>, k: DerivedKey<XPrv>,
                                                       path: Path, point: Point)
    returns (r: bool)
    ensures r == EcdsaVerified(sys, k, path, point)
  {
    if |path| <= |k.path| { return false; }
    if !(k.path <= path) { return false; }
    var xpub := DerivePublicSteps(sys, sys.publicKey(k.key), path[|k.path|..]);
    return xpub.Some? && sys.point(xpub.value) == point;
  }

  /** `MasterKey::derive`: agrees with the derived key the master key converts to. */
  method MasterDerive<XPrv, XPub, Scalar, Point>(sys: KeySystem<XPrv, XPub, Scalar, Point>, master: MasterKey<XPrv>,
                                                 path: Path)
    returns (r: Result<DerivedKey<XPrv>, KeyError>)
    ensures r == Derived(sys, FromMaster(master), path)
  {
    assert path[0..] == path;
    var key := DeriveSteps(sys, master.key, path);
    if key == None { return Err(StepFailed); }
    return Ok(DerivedKey(key.value, path));
  }

  /** `MasterKey::verify_derived_key`. */
  method MasterVerifyDerivedKey<XPrv, XPub, Scalar(==), Point>(sys: KeySystem<XPrv, XPub, Scalar, Point>,
                                                               master: MasterKey<XPrv>, child: DerivedKey<XPrv>)
    returns (r: Result<bool, KeyError>)
    ensures r == Verified(sys, FromMaster(master), child)
  {
    assert child.path[0..] == child.path;
    var key := DeriveSteps(sys, master.key, child.path);
    if key == None { return Err(StepFailed); }
    return Ok(sys.scalar(key.value) == sys.scalar(child.key));
  }

  /** `MasterKey::verify_ecdsa_key`: as for the converted key, except that the empty path
      names the master key itself instead of being refused. */
  method MasterVerifyEcdsaKey<XPrv, XPub, Scalar, Point(==)>(sys: KeySystem<XPrv, XPub, Scalar, Point>,
                                                             master: MasterKey<XPrv>, path: Path, point: Point)
    returns (r: bool)
    ensures path != [] ==> r == EcdsaVerified(sys, FromMaster(master), path, point)
    ensures path == [] ==> (r <==> point == sys.point(sys.publicKey(master.key)))
  {
    assert path[0..] == path;
    var xpub := DerivePublicSteps(sys, sys.publicKey(master.key), path);
    return xpub.Some? && sys.point(xpub.value) == point;
  }

  // ---------------------------------------------------------------- what derivation promises

  /** Each key is got from the one before it by the private step at its place. */
  ghost predicate IsChain<XPrv, XPub, Scalar, Point>(sys: KeySystem<XPrv, XPub, Scalar, Point>, keys: seq<XPrv>,
                                                     steps: Path) {
    |keys| == |steps| + 1 &&
    forall i :: 0 <= i < |steps| ==> sys.derivePrivate(keys[i], steps[i]) == Some(keys[i + 1])
  }

  /** A list of keys leads from one key to the other along the steps. */
  ghost predicate Leads<XPrv(!new), XPub, Scalar, Point>(sys: KeySystem<XPrv, XPub, Scalar, Point>, first: XPrv,
                                                         steps: Path, last: XPrv) {
    exists keys :: IsChain(sys, keys, steps) && keys[0] == first && keys[|keys| - 1] == last
  }

  lemma {:induction false} ChainCons<XPrv, XPub, Scalar, Point>(sys: KeySystem<XPrv, XPub, Scalar, Point>,
                                                                key: XPrv, keys: seq<XPrv>, steps: Path)
    requires steps != [] && IsChain(sys, keys, steps[1..]) && sys.derivePrivate(key, steps[0]) == Some(keys[0])
    ensures IsChain(sys, [key] + keys, steps)
  {
    var all := [key] + keys;
    forall i | 0 <= i < |steps| ensures sys.derivePrivate(all[i], steps[i]) == Some(all[i + 1]) {
      if i > 0 { assert steps[1..][i - 1] == steps[i] && all[i] == keys[i - 1] && all[i + 1] == keys[i]; }
    }
  }

  lemma {:induction false} ChainTail<XPrv, XPub, Scalar, Point>(sys: KeySystem<XPrv, XPub, Scalar, Point>,
                                                                keys: seq<XPrv>, steps: Path)
    requires steps != [] && IsChain(sys, keys, steps)
    ensures IsChain(sys, keys[1..], steps[1..]) && sys.derivePrivate(keys[0], steps[0]) == Some(keys[1])
  {
    forall i | 0 <= i < |steps| - 1 ensures sys.derivePrivate(keys[1..][i], steps[1..][i]) == Some(keys[1..][i + 1]) {
      assert steps[1..][i] == steps[i + 1];
    }
  }

  lemma {:induction false} AlongHasChain<XPrv, XPub, Scalar, Point>(sys: KeySystem<XPrv, XPub, Scalar, Point>,
                                                                    key: XPrv, steps: Path) returns (keys: seq<XPrv>)
    requires Along(sys, key, steps).Some?
    ensures IsChain(sys, keys, steps) && keys[0] == key && keys[|keys| - 1] == Along(sys, key, steps).value
    decreases |steps|
  {
    keys := [key];
    if steps != [] {
      var more := AlongHasChain(sys, sys.derivePrivate(key, steps[0]).value, steps[1..]);
      ChainCons(sys, key, more, steps);
      keys := [key] + more;
    }
  }

  lemma {:induction false} ChainIsAlong<XPrv, XPub, Scalar, Point>(sys: KeySystem<XPrv, XPub, Scalar, Point>,
                                                                   keys: seq<XPrv>, steps: Path)
    requires IsChain(sys, keys, steps)
    ensures Along(sys, keys[0], steps) == Some(keys[|keys| - 1])
    decreases |steps|
  {
    if steps != [] {
      ChainTail(sys, keys, steps);
      ChainIsAlong(sys, keys[1..], steps[1..]);
    }
  }

  lemma AlongIff<XPrv(!new), XPub, Scalar, Point>(sys: KeySystem<XPrv, XPub, Scalar, Point>, key: XPrv, steps: Path)
    ensures forall last :: Along(sys, key, steps) == Some(last) <==> Leads(sys, key, steps, last)
    ensures Along(sys, key, steps) == None <==> forall last :: !Leads(sys, key, steps, last)
  {
    forall last ensures Along(sys, key, steps) == Some(last) <==> Leads(sys, key, steps, last) {
      if Leads(sys, key, steps, last) {
        var keys :| IsChain(sys, keys, steps) && keys[0] == key && keys[|keys| - 1] == last;
        ChainIsAlong(sys, keys, steps);
      }
      if Along(sys, key, steps) == Some(last) {
        var keys := AlongHasChain(sys, key, steps);
      }
    }
    assert Along(sys, key, steps).Some? ==> Leads(sys, key, steps, Along(sys, key, steps).value);
  }

  /** Deriving to a path yields a key exactly when the path lies at or below the key's own and
      single private steps lead there, one for each further child number. */
  lemma DerivedIff<XPrv(!new), XPub, Scalar, Point>(sys: KeySystem<XPrv, XPub, Scalar, Point>, k: DerivedKey<XPrv>,
                                                    path: Path, d: DerivedKey<XPrv>)
    ensures Derived(sys, k, path) == Ok(d) <==>
            d.path == path && k.path <= path && Leads(sys, k.key, path[|k.path|..], d.key)
  {
    if k.path <= path { AlongIff(sys, k.key, path[|k.path|..]); }
  }

  /** Which error it is otherwise. */
  lemma DerivedErrors<XPrv(!new), XPub, Scalar, Point>(sys: KeySystem<XPrv, XPub, Scalar, Point>,
                                                       k: DerivedKey<XPrv>, path: Path)
    ensures Derived(sys, k, path) == Err(ShorterThanParent) <==> |path| < |k.path|
    ensures Derived(sys, k, path) == Err(NotBelowParent) <==> |path| >= |k.path| && !(k.path <= path)
    ensures Derived(sys, k, path) == Err(StepFailed) <==>
            k.path <= path && forall last :: !Leads(sys, k.key, path[|k.path|..], last)
  {
    if k.path <= path { AlongIff(sys, k.key, path[|k.path|..]); }
  }

  /** Deriving to a key's own path gives the key back. */
  lemma DerivedSelf<XPrv, XPub, Scalar, Point>(sys: KeySystem<XPrv, XPub, Scalar, Point>, k: DerivedKey<XPrv>)
    ensures Derived(sys, k, k.path) == Ok(k)
  {
    assert k.path[|k.path|..] == [];
  }

  /** Deriving to a path one longer is one private step. */
  lemma DerivedChild<XPrv, XPub, Scalar, Point>(sys: KeySystem<XPrv, XPub, Scalar, Point>, k: DerivedKey<XPrv>,
                                                c: ChildNumber)
    ensures Derived(sys, k, k.path + [c]) ==
            match sys.derivePrivate(k.key, c)
            case None => Err(StepFailed)
            case Some(key) => Ok(DerivedKey(key, k.path + [c]))
  {
    AlongSnoc(sys, k.key, [], c);
    assert (k.path + [c])[|k.path|..] == [] + [c];
  }

  /** Verification answers false off the path; on the path it answers whether the scalars of the
      child and of the key that private steps lead to agree, and fails exactly when none do. */
  lemma VerifiedIff<XPrv(!new), XPub, Scalar, Point>(sys: KeySystem<XPrv, XPub, Scalar, Point>, k: DerivedKey<XPrv>,
                                                     child: DerivedKey<XPrv>)
    ensures !(k.path <= child.path) ==> Verified(sys, k, child) == Ok(false)
    ensures k.path <= child.path ==>
      forall last :: Leads(sys, k.key, child.path[|k.path|..], last) ==>
        Verified(sys, k, child) == Ok(sys.scalar(last) == sys.scalar(child.key))
    ensures Verified(sys, k, child) == Err(StepFailed) <==>
            k.path <= child.path && forall last :: !Leads(sys, k.key, child.path[|k.path|..], last)
    ensures Verified(sys, k, child).Err? ==> Verified(sys, k, child) == Err(StepFailed)
  {
    if k.path <= child.path { AlongIff(sys, k.key, child.path[|k.path|..]); }
  }

  /** Each public key is got from the one before it by the public step at its place. */
  ghost predicate IsPublicChain<XPrv, XPub, Scalar, Point>(sys: KeySystem<XPrv, XPub, Scalar, Point>, keys: seq<XPub>,
                                                           steps: Path) {
    |keys| == |steps| + 1 &&
    forall i :: 0 <= i < |steps| ==> !steps[i].hardened && sys.derivePublic(keys[i], steps[i]) == Some(keys[i + 1])
  }

  /** A list of public keys leads from the first along the steps to one with the point. */
  ghost predicate PublicLeads<XPrv, XPub(!new), Scalar, Point>(sys: KeySystem<XPrv, XPub, Scalar, Point>, first: XPub,
                                                               steps: Path, point: Point) {
    exists keys :: IsPublicChain(sys, keys, steps) && keys[0] == first && sys.point(keys[|keys| - 1]) == point
  }

  lemma {:induction false} PublicChainIsAlong<XPrv, XPub, Scalar, Point>(sys: KeySystem<XPrv, XPub, Scalar, Point>,
      keys: seq<XPub>, steps: Path)
    requires IsPublicChain(sys, keys, steps)
    ensures PublicAlong(sys, keys[0], steps) == Some(keys[|keys| - 1])
    decreases |steps|
  {
    if steps != [] {
      assert forall i :: 0 <= i < |steps| - 1 ==> steps[1..][i] == steps[i + 1] && keys[1..][i + 1] == keys[i + 2];
      assert IsPublicChain(sys, keys[1..], steps[1..]);
      PublicChainIsAlong(sys, keys[1..], steps[1..]);
    }
  }

  lemma {:induction false} PublicAlongHasChain<XPrv, XPub, Scalar, Point>(sys: KeySystem<XPrv, XPub, Scalar, Point>,
      key: XPub, steps: Path) returns (keys: seq<XPub>)
    requires PublicAlong(sys, key, steps).Some?
    ensures IsPublicChain(sys, keys, steps) && keys[0] == key
    ensures keys[|keys| - 1] == PublicAlong(sys, key, steps).value
    decreases |steps|
  {
    keys := [key];
    if steps != [] {
      var more := PublicAlongHasChain(sys, sys.derivePublic(key, steps[0]).value, steps[1..]);
      keys := [key] + more;
      forall i | 0 <= i < |steps|
        ensures !steps[i].hardened && sys.derivePublic(keys[i], steps[i]) == Some(keys[i + 1])
      {
        if i > 0 { assert steps[1..][i - 1] == steps[i] && keys[i] == more[i - 1] && keys[i + 1] == more[i]; }
      }
    }
  }

  /** A public key verifies exactly when the path lies strictly below and public steps, none of
      them hardened, lead from the key's own public key to it. */
  lemma EcdsaVerifiedIff<XPrv, XPub(!new), Scalar, Point>(sys: KeySystem<XPrv, XPub, Scalar, Point>,
                                                          k: DerivedKey<XPrv>, path: Path, point: Point)
    ensures EcdsaVerified(sys, k, path, point) <==>
            k.path < path && PublicLeads(sys, sys.publicKey(k.key), path[|k.path|..], point)
  {
    if k.path < path {
      var steps, first := path[|k.path|..], sys.publicKey(k.key);
      if PublicLeads(sys, first, steps, point) {
        var keys :| IsPublicChain(sys, keys, steps) && keys[0] == first && sys.point(keys[|keys| - 1]) == point;
        PublicChainIsAlong(sys, keys, steps);
      }
      if PublicAlong(sys, first, steps).Some? {
        var keys := PublicAlongHasChain(sys, first, steps);
      }
    }
  }

  /** Going to a path in two stages is going there directly: with the same key when the
      first stage succeeds, and failing when it fails. */
  lemma DeriveInStages<XPrv, XPub, Scalar, Point>(sys: KeySystem<XPrv, XPub, Scalar, Point>, k: DerivedKey<XPrv>,
                                                  p: Path, q: Path)
    requires k.path <= p <= q
    ensures Derived(sys, k, q) ==
            match Derived(sys, k, p) case Err(_) => Err(StepFailed) case Ok(d) => Derived(sys, d, q)
  {
    var n := |k.path|;
    assert q[n..] == p[n..] + q[|p|..];
    AlongConcat(sys, k.key, p[n..], q[|p|..]);
  }

  /** Every derived key passes verification against the key it was derived from; and a key
      passes only if its path lies below and the key derived to that path has its scalar. */
  lemma VerifiesExactlyDerived<XPrv, XPub, Scalar, Point>(sys: KeySystem<XPrv, XPub, Scalar, Point>,
                                                          k: DerivedKey<XPrv>, child: DerivedKey<XPrv>)
    ensures Derived(sys, k, child.path) == Ok(child) ==> Verified(sys, k, child) == Ok(true)
    ensures Verified(sys, k, child) == Ok(true) <==>
            var d := Derived(sys, k, child.path); d.Ok? && sys.scalar(d.value.key) == sys.scalar(child.key)
  {
  }

  /** A derived key passes verification against the key at every path on its way. */
  lemma VerifiesAgainstAncestors<XPrv, XPub, Scalar, Point>(sys: KeySystem<XPrv, XPub, Scalar, Point>,
                                                            k: DerivedKey<XPrv>, d: DerivedKey<XPrv>, p: Path)
    requires Derived(sys, k, d.path) == Ok(d)
    requires k.path <= p <= d.path
    ensures Derived(sys, k, p).Ok? && Verified(sys, Derived(sys, k, p).value, d) == Ok(true)
  {
    DeriveInStages(sys, k, p, d.path);
    VerifiesExactlyDerived(sys, Derived(sys, k, p).value, d);
  }

  /** One public step agrees with one private step, where public steps exist. */
  ghost predicate Commutes<XPrv(!new), XPub, Scalar, Point>(sys: KeySystem<XPrv, XPub, Scalar, Point>) {
    forall x, c: ChildNumber :: !c.hardened && sys.derivePrivate(x, c).Some? ==>
      sys.derivePublic(sys.publicKey(x), c) == Some(sys.publicKey(sys.derivePrivate(x, c).value))
  }

  predicate NoneHardened(path: Path) {
    forall i :: 0 <= i < |path| ==> !path[i].hardened
  }

  lemma {:induction false} PublicFollowsPrivate<XPrv(!new), XPub, Scalar, Point>(
      sys: KeySystem<XPrv, XPub, Scalar, Point>, key: XPrv, path: Path)
    requires Commutes(sys) && Along(sys, key, path).Some? && NoneHardened(path)
    ensures PublicAlong(sys, sys.publicKey(key), path) == Some(sys.publicKey(Along(sys, key, path).value))
    decreases |path|
  {
    if path != [] {
      assert !path[0].hardened;
      PublicFollowsPrivate(sys, sys.derivePrivate(key, path[0]).value, path[1..]);
    }
  }

  lemma {:induction false} HardenedHasNoPublic<XPrv, XPub, Scalar, Point>(sys: KeySystem<XPrv, XPub, Scalar, Point>,
      key: XPub, path: Path)
    requires !NoneHardened(path)
    ensures PublicAlong(sys, key, path) == None
    decreases |path|
  {
    if !path[0].hardened && sys.derivePublic(key, path[0]).Some? {
      assert !NoneHardened(path[1..]) by {
        var i :| 0 <= i < |path| && path[i].hardened;
        assert path[1..][i - 1] == path[i];
      }
      HardenedHasNoPublic(sys, sys.derivePublic(key, path[0]).value, path[1..]);
    }
  }

  /** When public and private derivation commute for one step, the public key of a derived
      key passes `verify_ecdsa_key` exactly when it lies properly below and no step on the
      way is hardened. */
  lemma EcdsaVerifiesIff<XPrv(!new), XPub, Scalar, Point>(sys: KeySystem<XPrv, XPub, Scalar, Point>,
                                                          k: DerivedKey<XPrv>, d: DerivedKey<XPrv>)
    requires Commutes(sys) && Derived(sys, k, d.path) == Ok(d)
    ensures EcdsaVerified(sys, k, d.path, sys.point(sys.publicKey(d.key))) <==>
            k.path < d.path && NoneHardened(d.path[|k.path|..])
  {
    var suffix := d.path[|k.path|..];
    if NoneHardened(suffix) {
      PublicFollowsPrivate(sys, k.key, suffix);
    } else {
      HardenedHasNoPublic(sys, sys.publicKey(k.key), suffix);
    }
  }
}
