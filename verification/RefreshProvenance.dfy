/** Where refreshed tokens come from. A refresh decodes the token presented to it without
    verifying its signature, so its tokens are bounded by what was presented, and by tokens
    the service issued exactly when what was presented is. */
module RefreshProvenance {
  import opened Text
  import opened Scopes
  import opened OAuthGrants

  // ---------------------------------------------------------------- chains from issued tokens

  predicate HasRefreshToken(t: Tokens) {
    !t.origin.FromClientCredentials?
  }

  /** What the refresh token issued with `t` says. */
  function ClaimsOf(cfg: Config, t: Tokens): RefreshClaims {
    RefreshClaims(true, t.issuedAt + cfg.refreshTtl, Some(t.keyId), t.clientId, t.scopes, t.resource)
  }

  /** Tokens i were obtained by refreshing or exchanging tokens p. */
  predicate Link(cfg: Config, tokens: seq<Tokens>, i: nat, p: nat) {
    && i < |tokens| && p < |tokens|
    && match tokens[i].origin
       case FromRefresh(claims) => HasRefreshToken(tokens[p]) && claims == ClaimsOf(cfg, tokens[p])
       case FromExchange(q) => q == p
       case _ => false
  }

  predicate IsChain(cfg: Config, tokens: seq<Tokens>, path: seq<nat>) {
    && path != [] && path[|path| - 1] < |tokens|
    && forall j :: 0 <= j < |path| - 1 ==> Link(cfg, tokens, path[j], path[j + 1])
  }

  lemma LinkStaysWithin(cfg: Config, s: Service, i: nat, p: nat)
    requires Inv(cfg, s) && Link(cfg, s.tokens, i, p)
    ensures Within(s.tokens[i], s.tokens[p])
  {
    assert TokenFacts(cfg, s, i) && TokenFacts(cfg, s, p);
  }

  lemma {:induction false} ChainsStayWithin(cfg: Config, s: Service, path: seq<nat>)
    requires Inv(cfg, s) && IsChain(cfg, s.tokens, path)
    ensures path[0] < |s.tokens| && Within(s.tokens[path[0]], s.tokens[path[|path| - 1]])
  {
    if |path| > 1 {
      var rest := path[1..];
      assert Link(cfg, s.tokens, path[0], path[1]);
      assert forall j :: 0 <= j < |rest| ==> rest[j] == path[j + 1];
      ChainsStayWithin(cfg, s, rest);
      LinkStaysWithin(cfg, s, path[0], path[1]);
    }
  }

  /** In every run, along every chain of refresh and exchange grants that starts from tokens
      the service issued, scopes never grow and subject and client stay the same. */
  lemma ScopesNeverGrow(cfg: Config, run: seq<Step>, path: seq<nat>)
    requires IsRun(cfg, Empty, run) && IsChain(cfg, After(cfg, Empty, run).tokens, path)
    ensures var tokens := After(cfg, Empty, run).tokens;
            path[0] < |tokens| && Within(tokens[path[0]], tokens[path[|path| - 1]])
  {
    RunKeepsInv(cfg, Empty, run);
    ChainsStayWithin(cfg, After(cfg, Empty, run), path);
  }

  /** In every run refreshed tokens stay within what was presented for them. */
  lemma RefreshStaysWithinClaims(cfg: Config, run: seq<Step>, i: nat)
    requires IsRun(cfg, Empty, run) && i < |After(cfg, Empty, run).tokens|
    requires After(cfg, Empty, run).tokens[i].origin.FromRefresh?
    ensures var t := After(cfg, Empty, run).tokens[i]; WithinClaims(t, t.origin.presented)
  {
    RunKeepsInv(cfg, Empty, run);
    assert TokenFacts(cfg, After(cfg, Empty, run), i);
  }

  // ---------------------------------------------------------------- covered by issued tokens

  /** Tokens i stay within some earlier tokens that came with a refresh token. */
  predicate Covered(s: Service, i: nat)
    requires i < |s.tokens|
  {
    exists p :: 0 <= p < i && HasRefreshToken(s.tokens[p]) && Within(s.tokens[i], s.tokens[p])
  }

  ghost predicate AllCovered(s: Service) {
    forall i :: 0 <= i < |s.tokens| && s.tokens[i].origin.FromRefresh? ==> Covered(s, i)
  }

  /** The claims name client, user and scopes of tokens that the service issued with a refresh
      token, or fewer scopes. */
  predicate ClaimsCovered(s: Service, claims: RefreshClaims) {
    && claims.keyId.Some? && claims.keyId.value in s.owners
    && exists p :: 0 <= p < |s.tokens| && CoversClaims(s, s.tokens[p], claims)
  }

  predicate CoversClaims(s: Service, t: Tokens, claims: RefreshClaims)
    requires claims.keyId.Some? && claims.keyId.value in s.owners
  {
    && HasRefreshToken(t) && t.clientId == claims.clientId && t.subject == s.owners[claims.keyId.value].id
    && Elements(claims.scopes) <= Elements(t.scopes)
  }

  /** Presenting a refresh token that the service issued is covered. */
  lemma IssuedIsCovered(cfg: Config, s: Service, p: nat)
    requires Inv(cfg, s) && p < |s.tokens| && HasRefreshToken(s.tokens[p])
    ensures ClaimsCovered(s, ClaimsOf(cfg, s.tokens[p]))
  {
    assert TokenFacts(cfg, s, p);
    assert CoversClaims(s, s.tokens[p], ClaimsOf(cfg, s.tokens[p]));
  }

  /** The tokens that a successful refresh adds. */
  lemma RefreshAdds(s: Service, claims: RefreshClaims, auth: Option<ClientAuth>, scope: Option<string>, now: int,
                    signs: bool)
    requires Refresh(s, Some(claims), auth, scope, now, signs).Ok?
    requires forall c :: c in s.clients ==> s.clients[c].clientId == c
    ensures var s' := Refresh(s, Some(claims), auth, scope, now, signs).value;
            && |s'.tokens| == |s.tokens| + 1 && s'.tokens[..|s.tokens|] == s.tokens && s'.owners == s.owners
            && claims.keyId.Some? && claims.keyId.value in s.owners
            && var t := s'.tokens[|s.tokens|];
               && t.origin == FromRefresh(claims) && t.clientId == claims.clientId
               && t.subject == s.owners[claims.keyId.value].id
               && Elements(t.scopes) <= Elements(claims.scopes)
               && (scope == None ==> t.scopes == claims.scopes)
  {
  }

  lemma CoveredByClaims(cfg: Config, s: Service, claims: RefreshClaims, auth: Option<ClientAuth>, scope: Option<string>,
                        now: int, signs: bool)
    requires Inv(cfg, s) && Refresh(s, Some(claims), auth, scope, now, signs).Ok? && ClaimsCovered(s, claims)
    ensures Covered(Refresh(s, Some(claims), auth, scope, now, signs).value, |s.tokens|)
  {
    RefreshAdds(s, claims, auth, scope, now, signs);
    var s' := Refresh(s, Some(claims), auth, scope, now, signs).value;
    var p :| 0 <= p < |s.tokens| && CoversClaims(s, s.tokens[p], claims);
    assert s'.tokens[p] == s'.tokens[..|s.tokens|][p];
  }

  lemma ClaimsByCovered(cfg: Config, s: Service, claims: RefreshClaims, auth: Option<ClientAuth>, now: int, signs: bool)
    requires Inv(cfg, s) && Refresh(s, Some(claims), auth, None, now, signs).Ok?
    requires Covered(Refresh(s, Some(claims), auth, None, now, signs).value, |s.tokens|)
    ensures ClaimsCovered(s, claims)
  {
    RefreshAdds(s, claims, auth, None, now, signs);
    var s' := Refresh(s, Some(claims), auth, None, now, signs).value;
    var p :| 0 <= p < |s.tokens| && HasRefreshToken(s'.tokens[p]) && Within(s'.tokens[|s.tokens|], s'.tokens[p]);
    assert s'.tokens[p] == s'.tokens[..|s.tokens|][p];
    assert CoversClaims(s, s.tokens[p], claims);
  }

  /** Whatever scope a refresh asks for, its tokens stay within tokens the service issued,
      exactly when the presented claims do. */
  lemma RefreshCoveredIff(cfg: Config, s: Service, claims: RefreshClaims, auth: Option<ClientAuth>, now: int,
                          signs: bool)
    requires Inv(cfg, s) && Refresh(s, Some(claims), auth, None, now, signs).Ok?
    ensures (forall scope :: Refresh(s, Some(claims), auth, scope, now, signs).Ok? ==>
               Covered(Refresh(s, Some(claims), auth, scope, now, signs).value, |s.tokens|)) <==>
            ClaimsCovered(s, claims)
  {
    if ClaimsCovered(s, claims) {
      forall scope | Refresh(s, Some(claims), auth, scope, now, signs).Ok?
        ensures Covered(Refresh(s, Some(claims), auth, scope, now, signs).value, |s.tokens|)
      {
        CoveredByClaims(cfg, s, claims, auth, scope, now, signs);
      }
    } else if Covered(Refresh(s, Some(claims), auth, None, now, signs).value, |s.tokens|) {
      ClaimsByCovered(cfg, s, claims, auth, now, signs);
    }
  }

  // ---------------------------------------------------------------- whole runs

  predicate PresentsCovered(s: Service, step: Step) {
    step.DoRefresh? && step.presented.Some? ==> ClaimsCovered(s, step.presented.value)
  }

  predicate AllPresentCovered(cfg: Config, s: Service, run: seq<Step>)
    requires IsRun(cfg, s, run)
    decreases |run|
  {
    run == [] || (PresentsCovered(s, run[0]) && AllPresentCovered(cfg, Apply(cfg, s, run[0]), run[1..]))
  }

  lemma TokensExtend(cfg: Config, s: Service, step: Step)
    requires Enabled(s, step)
    ensures var s' := Apply(cfg, s, step);
            && |s.tokens| <= |s'.tokens| <= |s.tokens| + 1 && s'.tokens[..|s.tokens|] == s.tokens
            && (|s'.tokens| > |s.tokens| && s'.tokens[|s.tokens|].origin.FromRefresh? ==>
                  step.DoRefresh? && step.presented.Some? &&
                  Refresh(s, step.presented, step.auth, step.scope, step.now, step.signs).Ok?)
  {
    match step
    case DoPassword(clientId, auth, user, verified, keyId, scope, resource, now, signs) => PasswordAdds(cfg, s, step);
    case DoClientCredentials(_, _, _, _, _, _, _, _) => ClientCredentialsAdds(cfg, s, step);
    case DoRefresh(_, _, _, _, _) => RefreshExtends(cfg, s, step);
    case DoExchange(_, _, _, _, _, _, _) => ExchangeAdds(cfg, s, step);
    case DoRedeem(_, _, _, _) => RedeemAdds(cfg, s, step);
    case _ =>
      assert Apply(cfg, s, step).tokens == s.tokens;
      assert s.tokens[..|s.tokens|] == s.tokens;
  }

  /** At most one entry more, not from a refresh. */
  predicate OneMoreAtMost(s: Service, s': Service) {
    || s'.tokens == s.tokens
    || (|s'.tokens| == |s.tokens| + 1 && s'.tokens[..|s.tokens|] == s.tokens &&
        !s'.tokens[|s.tokens|].origin.FromRefresh?)
  }

  lemma PasswordAdds(cfg: Config, s: Service, step: Step)
    requires step.DoPassword?
    ensures OneMoreAtMost(s, Apply(cfg, s, step)) && s.tokens[..|s.tokens|] == s.tokens
  {
  }

  lemma ClientCredentialsAdds(cfg: Config, s: Service, step: Step)
    requires step.DoClientCredentials?
    ensures OneMoreAtMost(s, Apply(cfg, s, step)) && s.tokens[..|s.tokens|] == s.tokens
  {
  }

  lemma ExchangeAdds(cfg: Config, s: Service, step: Step)
    requires step.DoExchange? && Enabled(s, step)
    ensures OneMoreAtMost(s, Apply(cfg, s, step)) && s.tokens[..|s.tokens|] == s.tokens
  {
  }

  lemma RedeemAdds(cfg: Config, s: Service, step: Step)
    requires step.DoRedeem?
    ensures OneMoreAtMost(s, Apply(cfg, s, step)) && s.tokens[..|s.tokens|] == s.tokens
  {
    var checked := CheckCode(cfg, s, step.redeem, step.auth, step.now);
    if checked.Ok? { RowAdds(s, checked.value, step.redeem.verifier, step.now, step.signs); }
  }

  lemma RowAdds(s: Service, row: nat, verifier: string, now: int, signs: bool)
    requires Redeemable(s, row)
    ensures OneMoreAtMost(s, RedeemRow(s, row, verifier, now, signs).0)
  {
  }

  lemma RefreshExtends(cfg: Config, s: Service, step: Step)
    requires step.DoRefresh?
    ensures var s' := Apply(cfg, s, step);
            && |s.tokens| <= |s'.tokens| <= |s.tokens| + 1 && s'.tokens[..|s.tokens|] == s.tokens
            && (|s'.tokens| > |s.tokens| ==>
                  step.presented.Some? && Refresh(s, step.presented, step.auth, step.scope, step.now, step.signs).Ok?)
  {
    var r := Refresh(s, step.presented, step.auth, step.scope, step.now, step.signs);
    assert s.tokens[..|s.tokens|] == s.tokens;
    if r.Ok? {
      RefreshGrows(s, step.presented.value, step.auth, step.scope, step.now, step.signs);
    }
  }

  lemma RefreshGrows(s: Service, claims: RefreshClaims, auth: Option<ClientAuth>, scope: Option<string>, now: int,
                     signs: bool)
    requires Refresh(s, Some(claims), auth, scope, now, signs).Ok?
    ensures var s' := Refresh(s, Some(claims), auth, scope, now, signs).value;
            |s'.tokens| == |s.tokens| + 1 && s'.tokens[..|s.tokens|] == s.tokens
  {
  }

  lemma CoveredStays(s: Service, s': Service, i: nat)
    requires i < |s.tokens| <= |s'.tokens| && s'.tokens[..|s.tokens|] == s.tokens && Covered(s, i)
    ensures Covered(s', i)
  {
    assert forall j :: 0 <= j < |s.tokens| ==> s'.tokens[j] == s'.tokens[..|s.tokens|][j] == s.tokens[j];
    var p :| 0 <= p < i && HasRefreshToken(s.tokens[p]) && Within(s.tokens[i], s.tokens[p]);
    assert Within(s'.tokens[i], s'.tokens[p]);
  }

  lemma ExtendedCovered(s: Service, s': Service)
    requires AllCovered(s) && |s.tokens| <= |s'.tokens| <= |s.tokens| + 1 && s'.tokens[..|s.tokens|] == s.tokens
    requires |s'.tokens| > |s.tokens| && s'.tokens[|s.tokens|].origin.FromRefresh? ==> Covered(s', |s.tokens|)
    ensures AllCovered(s')
  {
    forall i | 0 <= i < |s'.tokens| && s'.tokens[i].origin.FromRefresh? ensures Covered(s', i) {
      if i < |s.tokens| {
        assert s'.tokens[i] == s'.tokens[..|s.tokens|][i];
        CoveredStays(s, s', i);
      }
    }
  }

  lemma RefreshStaysCovered(cfg: Config, s: Service, step: Step)
    requires Inv(cfg, s) && step.DoRefresh? && step.presented.Some? && PresentsCovered(s, step)
    requires Refresh(s, step.presented, step.auth, step.scope, step.now, step.signs).Ok?
    ensures |Apply(cfg, s, step).tokens| > |s.tokens| && Covered(Apply(cfg, s, step), |s.tokens|)
  {
    var claims := step.presented.value;
    assert step.presented == Some(claims);
    RefreshAdds(s, claims, step.auth, step.scope, step.now, step.signs);
    CoveredByClaims(cfg, s, claims, step.auth, step.scope, step.now, step.signs);
  }

  lemma StepStaysCovered(cfg: Config, s: Service, step: Step)
    requires Inv(cfg, s) && AllCovered(s) && Enabled(s, step) && PresentsCovered(s, step)
    ensures AllCovered(Apply(cfg, s, step))
  {
    TokensExtend(cfg, s, step);
    if step.DoRefresh? && step.presented.Some? &&
       Refresh(s, step.presented, step.auth, step.scope, step.now, step.signs).Ok? {
      RefreshStaysCovered(cfg, s, step);
    }
    ExtendedCovered(s, Apply(cfg, s, step));
  }

  /** A refresh that succeeds keeps all tokens covered, whatever scope it asks for, exactly when
      the presented claims are. */
  lemma ProvenanceSurvivesIff(cfg: Config, s: Service, claims: RefreshClaims, auth: Option<ClientAuth>, now: int,
                              signs: bool)
    requires Inv(cfg, s) && AllCovered(s) && Refresh(s, Some(claims), auth, None, now, signs).Ok?
    ensures (forall scope :: AllCovered(Apply(cfg, s, DoRefresh(Some(claims), auth, scope, now, signs)))) <==>
            ClaimsCovered(s, claims)
  {
    if ClaimsCovered(s, claims) {
      forall scope ensures AllCovered(Apply(cfg, s, DoRefresh(Some(claims), auth, scope, now, signs))) {
        StepStaysCovered(cfg, s, DoRefresh(Some(claims), auth, scope, now, signs));
      }
    } else {
      var s' := Apply(cfg, s, DoRefresh(Some(claims), auth, None, now, signs));
      RefreshAdds(s, claims, auth, None, now, signs);
      if AllCovered(s') {
        assert Covered(s', |s.tokens|);
        ClaimsByCovered(cfg, s, claims, auth, now, signs);
      }
    }
  }

  lemma {:induction false} RunStaysCovered(cfg: Config, s: Service, run: seq<Step>)
    requires Inv(cfg, s) && AllCovered(s) && IsRun(cfg, s, run) && AllPresentCovered(cfg, s, run)
    ensures AllCovered(After(cfg, s, run))
    decreases |run|
  {
    if run != [] {
      StepKeepsInv(cfg, s, run[0]);
      StepStaysCovered(cfg, s, run[0]);
      RunStaysCovered(cfg, Apply(cfg, s, run[0]), run[1..]);
    }
  }

  /** Tokens from which all others within them stem. */
  predicate IsFirst(t: Tokens) {
    !t.origin.FromRefresh? && !t.origin.FromExchange?
  }

  lemma {:induction false} FirstOf(cfg: Config, s: Service, i: nat) returns (first: nat)
    requires Inv(cfg, s) && AllCovered(s) && i < |s.tokens|
    ensures first <= i && IsFirst(s.tokens[first]) && Within(s.tokens[i], s.tokens[first])
  {
    assert TokenFacts(cfg, s, i);
    match s.tokens[i].origin
    case FromRefresh(_) =>
      var p :| 0 <= p < i && HasRefreshToken(s.tokens[p]) && Within(s.tokens[i], s.tokens[p]);
      first := FirstOf(cfg, s, p);
    case FromExchange(p) => first := FirstOf(cfg, s, p);
    case _ => first := i;
  }

  /** In every run that presents only claims covered by issued tokens, in particular only
      refresh tokens the service issued, all tokens stay within tokens of a code, password or
      client credentials grant, with the same subject and client. */
  lemma TokensHaveOrigin(cfg: Config, run: seq<Step>, i: nat) returns (first: nat)
    requires IsRun(cfg, Empty, run) && AllPresentCovered(cfg, Empty, run) && i < |After(cfg, Empty, run).tokens|
    ensures var tokens := After(cfg, Empty, run).tokens;
            first <= i && IsFirst(tokens[first]) && Within(tokens[i], tokens[first])
  {
    RunKeepsInv(cfg, Empty, run);
    RunStaysCovered(cfg, Empty, run);
    first := FirstOf(cfg, After(cfg, Empty, run), i);
  }

  /** Otherwise there need be no such tokens: without any approval, code or earlier tokens, a
      refresh that presents claims nobody issued yields tokens for the scopes it names. */
  lemma UnissuedClaims(cfg: Config, scopes: seq<string>) returns (run: seq<Step>)
    ensures IsRun(cfg, Empty, run)
    ensures var s := After(cfg, Empty, run);
            && s.approvals == [] && s.codes == [] && |s.tokens| == 1 && s.tokens[0].subject == 7
            && s.tokens[0].scopes == scopes && s.tokens[0].origin.FromRefresh? && !Covered(s, 0)
  {
    var client := Client(0, "c", "", Public, NoMethod, [], true, ["u"], [], [], None);
    var owner := Owner(User, 7);
    var ready := Service(map["c" := client], {7}, map[1 := owner], {1}, {1}, {}, [], [], []);
    var claims := RefreshClaims(true, 0, Some(1), "c", scopes, None);
    var step := DoRefresh(Some(claims), None, None, 0, true);
    var after := Apply(cfg, ready, step);
    assert FindPrincipal(ready, 1) == Some(owner);
    assert Refresh(ready, Some(claims), None, None, 0, true).Ok?;
    assert IsRun(cfg, after, []) && After(cfg, after, []) == after;
    Prepend(cfg, ready, step, after, []);
    run := Prepared(cfg, client, owner, ready, [step] + []);
  }
}
