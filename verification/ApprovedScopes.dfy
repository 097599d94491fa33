/** Whether tokens from an authorization code are for the very set of scopes that was
    approved. Approval and code are matched by the consent key only, and the registration may
    change in between, so it depends on what registrations list. */
module ApprovedScopes {
  import opened Text
  import opened Scopes
  import opened ScopeClaims
  import opened OAuthGrants

  /** What a request can be granted under a registration: all of it, or what it names. */
  predicate Chosen(scopes: seq<string>, registered: seq<string>) {
    scopes == registered || (scopes != [] && AllTokens(scopes) && Elements(scopes) <= Elements(registered))
  }

  type Registrations = iset<seq<string>>

  /** Consent keys tell the choices under these registrations apart. */
  ghost predicate KeysTell(registrations: Registrations) {
    forall a, b, x, y ::
      a in registrations && b in registrations && Chosen(x, a) && Chosen(y, b) &&
      NormalizeScopes(x) == NormalizeScopes(y) ==>
      Elements(x) == Elements(y)
  }

  predicate RegisteredFrom(registrations: Registrations, step: Step) {
    step.SetClient? ==> step.client.allowedScopes in registrations
  }

  ghost predicate ChosenFrom(registrations: Registrations, scopes: seq<string>) {
    exists a :: a in registrations && Chosen(scopes, a)
  }

  ghost predicate AllChosen(registrations: Registrations, s: Service) {
    && (forall c :: c in s.clients ==> s.clients[c].allowedScopes in registrations)
    && (forall i :: 0 <= i < |s.approvals| ==> ChosenFrom(registrations, s.approvals[i].scopes))
    && (forall i :: 0 <= i < |s.codes| ==> ChosenFrom(registrations, s.codes[i].scopes))
  }

  // ---------------------------------------------------------------- every run keeps to its choices

  lemma RequestChooses(scope: Option<string>, registered: seq<string>)
    requires ScopesAllowed(Requested(scope), registered)
    ensures Chosen(IntersectScopes(Requested(scope), registered), registered)
  {
    AllowedIntersection(Requested(scope), registered);
    if scope.Some? { ParsedScopesAreTokens(scope.value); }
  }

  lemma ApproveKeepsChosen(registrations: Registrations, s: Service, principal: Owner, request: ApproveRequest)
    requires AllChosen(registrations, s) && Approve(s, principal, request).Ok?
    ensures AllChosen(registrations, Approve(s, principal, request).value)
  {
    RequestChooses(Some(request.scope), s.clients[request.clientId].allowedScopes);
  }

  lemma AuthorizeKeepsChosen(registrations: Registrations, cfg: Config, s: Service, keyId: Id, principal: Owner,
                             request: AuthorizationRequest, now: int, code: string)
    requires AllChosen(registrations, s) && Authorize(cfg, s, keyId, principal, request, now, code).Ok?
    ensures AllChosen(registrations, Authorize(cfg, s, keyId, principal, request, now, code).value)
  {
    RequestChooses(request.scope, s.clients[request.clientId].allowedScopes);
  }

  lemma SameScopesChosen(registrations: Registrations, s: Service, s': Service)
    requires AllChosen(registrations, s) && SameScopes(s, s')
    ensures AllChosen(registrations, s')
  {
  }

  lemma StepKeepsChosen(registrations: Registrations, cfg: Config, s: Service, step: Step)
    requires AllChosen(registrations, s) && Enabled(s, step) && RegisteredFrom(registrations, step)
    ensures AllChosen(registrations, Apply(cfg, s, step))
  {
    match step
    case DoApprove(keyId, request) =>
      if Approve(s, FindPrincipal(s, keyId).value, request).Ok? {
        ApproveKeepsChosen(registrations, s, FindPrincipal(s, keyId).value, request);
      }
    case DoAuthorize(keyId, request, now, code) =>
      if Authorize(cfg, s, keyId, FindPrincipal(s, keyId).value, request, now, code).Ok? {
        AuthorizeKeepsChosen(registrations, cfg, s, keyId, FindPrincipal(s, keyId).value, request, now, code);
      }
    case DoRedeem(request, auth, now, signs) =>
      RedeemKeepsScopes(cfg, s, request, auth, now, signs);
      SameScopesChosen(registrations, s, Apply(cfg, s, step));
    case DoPassword(_, _, _, _, _, _, _, _, _) => OtherGrants(cfg, s, step);
    case DoClientCredentials(_, _, _, _, _, _, _, _) => OtherGrants(cfg, s, step);
    case DoRefresh(_, _, _, _, _) => OtherGrants(cfg, s, step);
    case DoExchange(_, _, _, _, _, _, _) => OtherGrants(cfg, s, step);
    case _ =>
  }

  ghost predicate RunFrom(registrations: Registrations, run: seq<Step>) {
    forall i :: 0 <= i < |run| ==> RegisteredFrom(registrations, run[i])
  }

  lemma {:induction false} RunKeepsChosen(registrations: Registrations, cfg: Config, s: Service, run: seq<Step>)
    requires AllChosen(registrations, s) && IsRun(cfg, s, run) && RunFrom(registrations, run)
    ensures AllChosen(registrations, After(cfg, s, run))
    decreases |run|
  {
    if run != [] {
      assert RegisteredFrom(registrations, run[0]);
      StepKeepsChosen(registrations, cfg, s, run[0]);
      assert forall i :: 0 <= i < |run[1..]| ==> run[1..][i] == run[i + 1];
      RunKeepsChosen(registrations, cfg, Apply(cfg, s, run[0]), run[1..]);
    }
  }

  // ---------------------------------------------------------------- approved for their scopes

  /** Tokens i were approved by the user they name for the same client, redirect URI and set
      of scopes. */
  predicate ScopesApproved(s: Service, i: nat)
    requires i < |s.tokens| && s.tokens[i].origin.FromCode?
  {
    var t := s.tokens[i];
    exists j :: 0 <= j < |s.approvals| &&
      s.approvals[j].user == t.subject && s.approvals[j].clientId == t.clientId &&
      t.origin.row < |s.codes| && s.approvals[j].redirectUri == s.codes[t.origin.row].redirectUri &&
      Elements(s.approvals[j].scopes) == Elements(t.scopes)
  }

  ghost predicate AllScopesApproved(s: Service) {
    forall i :: 0 <= i < |s.tokens| && s.tokens[i].origin.FromCode? ==> ScopesApproved(s, i)
  }

  lemma CodeTokensHaveApprovedScopes(registrations: Registrations, cfg: Config, run: seq<Step>, i: nat)
    requires KeysTell(registrations) && IsRun(cfg, Empty, run) && RunFrom(registrations, run)
    requires i < |After(cfg, Empty, run).tokens| && After(cfg, Empty, run).tokens[i].origin.FromCode?
    ensures ScopesApproved(After(cfg, Empty, run), i)
  {
    var approval := CodeTokensWereApproved(cfg, run, i);
    RunKeepsChosen(registrations, cfg, Empty, run);
    var s := After(cfg, Empty, run);
    var t := s.tokens[i];
    var j :| 0 <= j < |s.approvals| && s.approvals[j] == approval;
    assert ChosenFrom(registrations, s.codes[t.origin.row].scopes);
    var a :| a in registrations && Chosen(approval.scopes, a);
    var b :| b in registrations && Chosen(t.scopes, b);
  }

  /** Registrations that list only non-empty scopes without spaces are told apart. */
  lemma CleanKeysTell(registrations: Registrations)
    requires forall a :: a in registrations ==> Clean(a)
    ensures KeysTell(registrations)
  {
    forall a, b, x, y
      | a in registrations && b in registrations && Chosen(x, a) && Chosen(y, b) &&
        NormalizeScopes(x) == NormalizeScopes(y)
      ensures Elements(x) == Elements(y)
    {
      ChosenClean(x, a);
      ChosenClean(y, b);
      ConsentKeyCanonical(x, y);
    }
  }

  lemma ChosenClean(x: seq<string>, a: seq<string>)
    requires Clean(a) && Chosen(x, a)
    ensures Clean(x)
  {
    forall i | 0 <= i < |x| ensures x[i] != "" && Free(x[i], ' ') {
      assert x != a ==> IsToken(x[i]);
    }
  }

  // ---------------------------------------------------------------- and exactly then

  /** The scope text that asks for these scopes; the empty text asks for all. */
  function Asking(scopes: seq<string>, registered: seq<string>): string {
    if scopes == registered then "" else Join(scopes, ' ')
  }

  lemma AskingGets(scopes: seq<string>, registered: seq<string>)
    requires Chosen(scopes, registered)
    ensures var requested := ParseScopes(Asking(scopes, registered));
            ScopesAllowed(requested, registered) && IntersectScopes(requested, registered) == scopes
  {
    if scopes == registered {
      assert ParseScopes("") == [];
    } else {
      ParseJoined(scopes);
      assert scopes[0] in Elements(scopes);
      assert registered != [];
    }
  }

  function ClientFor(registered: seq<string>): Client {
    Client(0, "c", "", Public, NoMethod, [], true, ["u"], registered, [], None)
  }

  function ConsentTo(scopes: seq<string>): Consent {
    Consent(7, "c", "u", NormalizeScopes(scopes))
  }

  function ServiceWith(registered: seq<string>, consents: set<Consent>, approvals: seq<Approval>): Service {
    Service(map["c" := ClientFor(registered)], {7}, map[1 := Owner(User, 7)], {1}, {1}, consents, [], approvals, [])
  }

  function CodeFor(cfg: Config, scopes: seq<string>): Code {
    Code(cfg.codeHash("k"), "c", 1, "u", scopes, None, Some(cfg.s256("v")), cfg.codeTtl, false)
  }

  lemma ApprovesChoice(a: seq<string>, x: seq<string>)
    requires Chosen(x, a)
    ensures Approve(ServiceWith(a, {}, []), Owner(User, 7), ApproveRequest("c", "u", Asking(x, a))) ==
            Ok(ServiceWith(a, {ConsentTo(x)}, [Approval(7, "c", "u", x)]))
  {
    AskingGets(x, a);
    assert {} + {ConsentTo(x)} == {ConsentTo(x)} && [] + [Approval(7, "c", "u", x)] == [Approval(7, "c", "u", x)];
  }

  function AuthorizeFor(cfg: Config, scope: string): AuthorizationRequest {
    AuthorizationRequest("c", Some("u"), Some(scope), None, Some(cfg.s256("v")), true)
  }

  lemma AuthorizesChoice(cfg: Config, b: seq<string>, y: seq<string>, x: seq<string>)
    requires Chosen(y, b) && NormalizeScopes(x) == NormalizeScopes(y)
    ensures var s := ServiceWith(b, {ConsentTo(x)}, [Approval(7, "c", "u", x)]);
            Authorize(cfg, s, 1, Owner(User, 7), AuthorizeFor(cfg, Asking(y, b)), 0, "k") ==
            Ok(s.(codes := [CodeFor(cfg, y)]))
  {
    AskingGets(y, b);
    assert [] + [CodeFor(cfg, y)] == [CodeFor(cfg, y)];
  }

  /** The one code there is, issued to user 7 for a public client, can be redeemed. */
  lemma RedeemsOnlyCode(cfg: Config, s: Service, code: Code)
    requires s.codes == [code] && s.tokens == [] && code.hash == cfg.codeHash("k") && !code.consumed
    requires code.expiresAt >= 0
    requires code.keyId == 1 && FindPrincipal(s, 1) == Some(Owner(User, 7)) && code.challenge == Some(cfg.s256("v"))
    requires code.clientId in s.clients && s.clients[code.clientId].grantTypes == []
    requires s.clients[code.clientId].clientType == Public
    ensures var s' := Apply(cfg, s, DoRedeem(CodeRequest("k", "v", None, None), None, 0, true));
            && s'.approvals == s.approvals
            && |s'.tokens| == 1 && s'.tokens[0].origin.FromCode? && s'.tokens[0].scopes == code.scopes
  {
    var request := CodeRequest("k", "v", None, None);
    assert FindCode(s.codes, code.hash) == Some(0);
    assert CheckCode(cfg, s, request, None, 0) == Ok(0);
  }

  lemma Ends(cfg: Config, s: Service, step: Step)
    requires Enabled(s, step)
    ensures IsRun(cfg, s, [step]) && After(cfg, s, [step]) == Apply(cfg, s, step)
  {
    assert [step][1..] == [];
  }

  ghost predicate Mismatch(s: Service, x: seq<string>, y: seq<string>) {
    && |s.tokens| == 1 && s.tokens[0].origin.FromCode? && s.tokens[0].scopes == y
    && s.approvals == [Approval(7, "c", "u", x)]
  }

  /** Under registration b, with scopes x approved, a code is issued for scopes y and redeemed. */
  lemma IssuesUnder(cfg: Config, b: seq<string>, y: seq<string>, x: seq<string>) returns (run: seq<Step>)
    requires Chosen(y, b) && NormalizeScopes(x) == NormalizeScopes(y)
    ensures var s := ServiceWith(b, {ConsentTo(x)}, [Approval(7, "c", "u", x)]);
            IsRun(cfg, s, run) && Mismatch(After(cfg, s, run), x, y)
    ensures |run| == 2 && forall i :: 0 <= i < |run| ==> !run[i].SetClient?
  {
    var changed := ServiceWith(b, {ConsentTo(x)}, [Approval(7, "c", "u", x)]);
    var issued := changed.(codes := [CodeFor(cfg, y)]);
    var authorize := DoAuthorize(1, AuthorizeFor(cfg, Asking(y, b)), 0, "k");
    var redeem := DoRedeem(CodeRequest("k", "v", None, None), None, 0, true);
    RedeemsOnlyCode(cfg, issued, CodeFor(cfg, y));
    Ends(cfg, issued, redeem);
    AuthorizesChoice(cfg, b, y, x);
    Prepend(cfg, changed, authorize, issued, [redeem]);
    run := [authorize] + [redeem];
  }

  /** Scopes x are approved under registration a; the registration becomes b; then a code and
      tokens are issued for scopes y, because their consent key is the same. */
  lemma SharedKeyRun(cfg: Config, a: seq<string>, x: seq<string>, b: seq<string>, y: seq<string>)
    returns (run: seq<Step>)
    requires Chosen(x, a) && Chosen(y, b) && NormalizeScopes(x) == NormalizeScopes(y)
    ensures IsRun(cfg, Empty, run) && RunFrom(iset{a, b}, run)
    ensures Mismatch(After(cfg, Empty, run), x, y)
  {
    var ready := ServiceWith(a, {}, []);
    var approved := ServiceWith(a, {ConsentTo(x)}, [Approval(7, "c", "u", x)]);
    var changed := ServiceWith(b, {ConsentTo(x)}, [Approval(7, "c", "u", x)]);
    var approve := DoApprove(1, ApproveRequest("c", "u", Asking(x, a)));
    var change := SetClient(ClientFor(b));
    var last := IssuesUnder(cfg, b, y, x);
    assert approved.clients["c" := ClientFor(b)] == changed.clients;
    Prepend(cfg, approved, change, changed, last);
    ApprovesChoice(a, x);
    Prepend(cfg, ready, approve, approved, [change] + last);
    run := Prepared(cfg, ClientFor(a), Owner(User, 7), ready, [approve] + ([change] + last));
    StepsFrom(run, a, b, approve, last);
  }

  lemma StepsFrom(run: seq<Step>, a: seq<string>, b: seq<string>, approve: Step, last: seq<Step>)
    requires |run| == 8 && run[4..] == [approve] + ([SetClient(ClientFor(b))] + last) && |last| == 2
    requires run[0] == SetClient(ClientFor(a)) && !approve.SetClient?
    requires forall i :: 1 <= i < 4 ==> !run[i].SetClient?
    requires forall i :: 0 <= i < |last| ==> !last[i].SetClient?
    ensures RunFrom(iset{a, b}, run)
  {
    assert forall i :: 4 <= i < 8 ==> run[i] == run[4..][i - 4];
    assert run[4] == approve && run[5] == SetClient(ClientFor(b)) && run[6] == last[0] && run[7] == last[1];
  }

  lemma KeysTellSuffices(cfg: Config, registrations: Registrations, run: seq<Step>)
    requires KeysTell(registrations) && IsRun(cfg, Empty, run) && RunFrom(registrations, run)
    ensures AllScopesApproved(After(cfg, Empty, run))
  {
    var s := After(cfg, Empty, run);
    forall i | 0 <= i < |s.tokens| && s.tokens[i].origin.FromCode? ensures ScopesApproved(s, i) {
      CodeTokensHaveApprovedScopes(registrations, cfg, run, i);
    }
  }

  lemma MismatchIsNotApproved(s: Service, x: seq<string>, y: seq<string>)
    requires Mismatch(s, x, y) && Elements(x) != Elements(y)
    ensures !AllScopesApproved(s) && !ScopesApproved(s, 0)
  {
  }

  lemma Untold(registrations: Registrations) returns (a: seq<string>, x: seq<string>, b: seq<string>, y: seq<string>)
    requires !KeysTell(registrations)
    ensures a in registrations && b in registrations && Chosen(x, a) && Chosen(y, b)
    ensures NormalizeScopes(x) == NormalizeScopes(y) && Elements(x) != Elements(y)
  {
    a, b, x, y :| a in registrations && b in registrations && Chosen(x, a) && Chosen(y, b) &&
      NormalizeScopes(x) == NormalizeScopes(y) && Elements(x) != Elements(y);
  }

  lemma RunFromMore(some: Registrations, more: Registrations, run: seq<Step>)
    requires some <= more && RunFrom(some, run)
    ensures RunFrom(more, run)
  {
    forall i | 0 <= i < |run| ensures RegisteredFrom(more, run[i]) {
      assert RegisteredFrom(some, run[i]);
    }
  }

  /** Keys that do not tell choices apart lead to tokens for scopes nobody approved. */
  lemma KeysTellNeeded(cfg: Config, registrations: Registrations) returns (run: seq<Step>)
    requires !KeysTell(registrations)
    ensures IsRun(cfg, Empty, run) && RunFrom(registrations, run) && !AllScopesApproved(After(cfg, Empty, run))
  {
    var a, x, b, y := Untold(registrations);
    run := SharedKeyRun(cfg, a, x, b, y);
    RunFromMore(iset{a, b}, registrations, run);
    MismatchIsNotApproved(After(cfg, Empty, run), x, y);
  }

  /** In every run whose registrations are among the given ones, all tokens from codes were
      approved for their set of scopes, exactly when consent keys tell the choices under those
      registrations apart. */
  lemma ApprovedScopesIff(cfg: Config, registrations: Registrations)
    ensures (forall run :: IsRun(cfg, Empty, run) && RunFrom(registrations, run) ==>
               AllScopesApproved(After(cfg, Empty, run))) <==> KeysTell(registrations)
  {
    if KeysTell(registrations) {
      forall run | IsRun(cfg, Empty, run) && RunFrom(registrations, run)
        ensures AllScopesApproved(After(cfg, Empty, run)) {
        KeysTellSuffices(cfg, registrations, run);
      }
    } else {
      var run := KeysTellNeeded(cfg, registrations);
    }
  }

  // ---------------------------------------------------------------- a test on the lists

  /** The scopes one would have to ask for by name to get the consent key of a whole list. */
  function Pieces(registered: seq<string>): seq<string> {
    ParseScopes(NormalizeScopes(registered))
  }

  /** The pieces of list a can be asked for under list b, with the key of all of a. */
  predicate Asked(a: seq<string>, b: seq<string>) {
    Pieces(a) != [] && Elements(Pieces(a)) <= Elements(b) && NormalizeScopes(Pieces(a)) == NormalizeScopes(a)
  }

  /** What an administrator can check list by list. */
  predicate ListsTell(lists: seq<seq<string>>) {
    forall a, b :: a in lists && b in lists ==>
      && (NormalizeScopes(a) == NormalizeScopes(b) ==> Elements(a) == Elements(b))
      && (Asked(a, b) ==> Elements(Pieces(a)) == Elements(a))
  }

  function RegistrationsOf(lists: seq<seq<string>>): Registrations {
    iset a | a in lists
  }

  /** Scopes asked for by name are the pieces of any list with their consent key. */
  lemma NamedArePieces(y: seq<string>, a: seq<string>)
    requires y != [] && AllTokens(y) && NormalizeScopes(y) == NormalizeScopes(a)
    ensures Elements(Pieces(a)) == Elements(y) && Pieces(a) != []
    ensures NormalizeScopes(Pieces(a)) == NormalizeScopes(a)
  {
    var sorted := SortedUnique(y);
    SortedUniqueFacts(y);
    TokensBySet(y, sorted);
    ParseJoined(sorted);
    assert y[0] in Elements(y);
    NoElements(sorted);
    TokensClean(y);
    TokensClean(sorted);
    ConsentKeyCanonical(sorted, y);
  }

  lemma TokensBySet(a: seq<string>, b: seq<string>)
    requires AllTokens(a) && Elements(b) == Elements(a)
    ensures AllTokens(b)
  {
    forall i | 0 <= i < |b| ensures IsToken(b[i]) {
      assert b[i] in Elements(b);
    }
  }

  lemma TokensClean(a: seq<string>)
    requires AllTokens(a)
    ensures Clean(a)
  {
    forall i | 0 <= i < |a| ensures a[i] != "" && Free(a[i], ' ') {
      assert IsToken(a[i]);
    }
  }

  /** Two choices with one key are for one set of scopes when the lists pass the test. */
  lemma ChoicesTold(lists: seq<seq<string>>, a: seq<string>, x: seq<string>, b: seq<string>, y: seq<string>)
    requires ListsTell(lists) && a in lists && b in lists && Chosen(x, a) && Chosen(y, b)
    requires NormalizeScopes(x) == NormalizeScopes(y)
    ensures Elements(x) == Elements(y)
  {
    if x == a && y == b {
    } else if x == a {
      NamedArePieces(y, a);
      assert Asked(a, b);
    } else if y == b {
      NamedArePieces(x, b);
      assert Asked(b, a);
    } else {
      TokensClean(x);
      TokensClean(y);
      ConsentKeyCanonical(x, y);
    }
  }

  /** Consent keys tell all choices under the listed registrations apart exactly when the lists
      pass the test. */
  lemma ListsTellIff(lists: seq<seq<string>>)
    ensures KeysTell(RegistrationsOf(lists)) <==> ListsTell(lists)
  {
    if ListsTell(lists) {
      forall a, b, x, y
        | a in RegistrationsOf(lists) && b in RegistrationsOf(lists) && Chosen(x, a) && Chosen(y, b) &&
          NormalizeScopes(x) == NormalizeScopes(y)
        ensures Elements(x) == Elements(y)
      {
        ChoicesTold(lists, a, x, b, y);
      }
    }
    if KeysTell(RegistrationsOf(lists)) {
      forall a, b | a in lists && b in lists
        ensures NormalizeScopes(a) == NormalizeScopes(b) ==> Elements(a) == Elements(b)
        ensures Asked(a, b) ==> Elements(Pieces(a)) == Elements(a)
      {
        ListTold(RegistrationsOf(lists), a, b);
      }
    }
  }

  lemma ListTold(registrations: Registrations, a: seq<string>, b: seq<string>)
    requires KeysTell(registrations) && a in registrations && b in registrations
    ensures NormalizeScopes(a) == NormalizeScopes(b) ==> Elements(a) == Elements(b)
    ensures Asked(a, b) ==> Elements(Pieces(a)) == Elements(a)
  {
    assert Chosen(a, a) && Chosen(b, b);
    if Asked(a, b) {
      ParsedScopesAreTokens(NormalizeScopes(a));
      assert Chosen(Pieces(a), b);
    }
  }

  /** With finitely many registrations, the test on their lists decides whether all tokens from
      codes were approved for their scopes in every run. */
  lemma ApprovedScopesDecided(cfg: Config, lists: seq<seq<string>>)
    ensures (forall run :: IsRun(cfg, Empty, run) && RunFrom(RegistrationsOf(lists), run) ==>
               AllScopesApproved(After(cfg, Empty, run))) <==> ListsTell(lists)
  {
    ApprovedScopesIff(cfg, RegistrationsOf(lists));
    ListsTellIff(lists);
  }

  /** A client registered for the one scope "a b" is approved; re-registered for "a" and "b" it
      gets tokens for these two, which nobody approved and which every consumer can read. */
  lemma SpacesInRegistrations(cfg: Config) returns (run: seq<Step>)
    ensures IsRun(cfg, Empty, run)
    ensures var s := After(cfg, Empty, run);
            && |s.tokens| == 1 && s.tokens[0].origin.FromCode? && s.tokens[0].scopes == ["a", "b"]
            && s.approvals == [Approval(7, "c", "u", ["a b"])] && !ScopesApproved(s, 0)
    ensures ReadScopeClaim(WriteScopeClaim(["a", "b"])) == Some(["a", "b"])
  {
    SpacesShareKeys();
    run := SharedKeyRun(cfg, ["a b"], ["a b"], ["a", "b"], ["a", "b"]);
    MismatchIsNotApproved(After(cfg, Empty, run), ["a b"], ["a", "b"]);
    ScopeClaimRoundTrip(["a", "b"]);
  }
}
