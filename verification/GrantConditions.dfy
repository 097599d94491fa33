/** Exactly when consent, codes and each kind of token are granted, stated on the repositories
    and the request alone, what is then added, and that every token of every run stems from a
    step for which these conditions held. */
module GrantConditions {
  import opened Text
  import opened Scopes
  import opened ScopeClaims
  import opened OAuthGrants

  // ---------------------------------------------------------------- conditions

  /** The caller is the client: a public client if it names itself, if anything; a confidential
      client by its secret, sent the way it is registered for. */
  predicate Proves(client: Client, auth: Option<ClientAuth>) {
    if client.clientType == Public then auth == None || auth.value.clientId == client.clientId
    else auth in {Some(ClientAuth(client.clientId, Some(client.secret), ClientSecretBasic)),
                  Some(ClientAuth(client.clientId, Some(client.secret), ClientSecretPost))} &&
         auth.value.authMethod == client.authMethod
  }

  predicate MayUse(client: Client, grant: GrantType) {
    |client.grantTypes| > 0 ==> exists i :: 0 <= i < |client.grantTypes| && client.grantTypes[i] == grant
  }

  /** The registered client may use the grant, and the caller is the client. */
  predicate Admitted(s: Service, clientId: string, auth: Option<ClientAuth>, grant: GrantType) {
    clientId in s.clients && MayUse(s.clients[clientId], grant) && Proves(s.clients[clientId], auth)
  }

  /** The key is the active root key of an existing entity. */
  predicate Represents(s: Service, keyId: Id, owner: Owner) {
    && keyId in s.owners && s.owners[keyId] == owner && keyId in s.active && keyId in s.roots
    && (owner.entityType == User ==> owner.id in s.users)
    && (owner.entityType == ClientEntity ==> exists c :: c in s.clients && s.clients[c].id == owner.id)
  }

  predicate RepresentsUser(s: Service, keyId: Id) {
    keyId in s.owners && s.owners[keyId].entityType == User && Represents(s, keyId, s.owners[keyId])
  }

  /** The scopes a request comes to when it has to be within the allowed ones. */
  predicate Grants(requested: seq<string>, allowed: seq<string>, scopes: seq<string>) {
    if requested == [] then scopes == allowed
    else scopes == requested && forall x :: x in requested ==> x in allowed
  }

  /** The scopes a request comes to when others are left out. */
  ghost predicate Narrows(requested: seq<string>, allowed: seq<string>, scopes: seq<string>) {
    if requested == [] then scopes == allowed
    else forall x :: x in scopes <==> x in requested && x in allowed
  }

  predicate Added(s: Service, s': Service, t: Tokens) {
    s' == s.(tokens := s.tokens + [t])
  }

  lemma RepresentsIff(s: Service, keyId: Id, owner: Owner)
    ensures FindPrincipal(s, keyId) == Some(owner) <==> Represents(s, keyId, owner)
  {
  }

  lemma AdmittedIff(s: Service, clientId: string, auth: Option<ClientAuth>, grant: GrantType)
    ensures Admitted(s, clientId, auth, grant) <==>
            clientId in s.clients && GrantAllowed(s.clients[clientId], grant) &&
            Authenticated(s.clients[clientId], auth)
  {
  }

  lemma SubsetIff(a: seq<string>, b: seq<string>)
    ensures Elements(a) <= Elements(b) <==> forall x :: x in a ==> x in b
  {
    assert forall x :: x in a <==> x in Elements(a);
    assert forall x :: x in b <==> x in Elements(b);
  }

  lemma GrantsIff(requested: seq<string>, allowed: seq<string>)
    ensures ScopesAllowed(requested, allowed) ==> Grants(requested, allowed, IntersectScopes(requested, allowed))
    ensures forall scopes :: Grants(requested, allowed, scopes) ==>
              ScopesAllowed(requested, allowed) && IntersectScopes(requested, allowed) == scopes
  {
    SubsetIff(requested, allowed);
    if requested != [] { assert requested[0] in requested; }
  }

  lemma IntersectNarrows(requested: seq<string>, allowed: seq<string>)
    ensures Narrows(requested, allowed, IntersectScopes(requested, allowed))
  {
    var scopes := IntersectScopes(requested, allowed);
    assert requested != [] ==> Elements(scopes) == Elements(requested) * Elements(allowed);
    assert forall x :: x in scopes <==> x in Elements(scopes);
    assert forall x :: x in requested <==> x in Elements(requested);
    assert forall x :: x in allowed <==> x in Elements(allowed);
  }

  // ---------------------------------------------------------------- consent and codes

  predicate MayApprove(s: Service, principal: Owner, request: ApproveRequest, scopes: seq<string>) {
    && principal.entityType == User && request.clientId in s.clients
    && request.redirectUri in s.clients[request.clientId].redirectUris
    && Grants(ParseScopes(request.scope), s.clients[request.clientId].allowedScopes, scopes)
  }

  /** A user's approval is recorded exactly for a registered client, one of its redirect URIs and
      scopes it is allowed; consent and approval are then as requested. */
  lemma ApproveIff(s: Service, principal: Owner, request: ApproveRequest)
    ensures Approve(s, principal, request).Ok? <==> exists scopes :: MayApprove(s, principal, request, scopes)
    ensures forall scopes :: MayApprove(s, principal, request, scopes) ==>
      var id := s.clients[request.clientId].clientId;
      Approve(s, principal, request) ==
      Ok(s.(consents := s.consents + {Consent(principal.id, id, request.redirectUri, NormalizeScopes(scopes))},
            approvals := s.approvals + [Approval(principal.id, id, request.redirectUri, scopes)]))
  {
    if request.clientId in s.clients {
      GrantsIff(ParseScopes(request.scope), s.clients[request.clientId].allowedScopes);
      var scopes := IntersectScopes(ParseScopes(request.scope), s.clients[request.clientId].allowedScopes);
      assert Approve(s, principal, request).Ok? ==> MayApprove(s, principal, request, scopes);
    }
  }

  /** The redirect URI is the one asked for, a registered one, or else the only one registered. */
  predicate Redirects(request: AuthorizationRequest, client: Client, uri: string) {
    if request.redirectUri.Some? then request.redirectUri.value == uri && uri in client.redirectUris
    else client.redirectUris == [uri]
  }

  /** A challenge with its method; or neither, where it is not required and the client can keep a
      secret. */
  predicate ChallengeFits(cfg: Config, request: AuthorizationRequest, client: Client) {
    || (request.challenge.Some? && request.s256Method)
    || (request.challenge == None && !request.s256Method && !cfg.requirePkce && client.clientType == Confidential)
  }

  predicate MayAuthorize(cfg: Config, s: Service, principal: Owner, request: AuthorizationRequest, uri: string,
                         scopes: seq<string>) {
    && request.clientId in s.clients
    && var client := s.clients[request.clientId];
       && client.clientId == request.clientId && client.codeResponse && Redirects(request, client, uri)
       && ChallengeFits(cfg, request, client) && Grants(Requested(request.scope), client.allowedScopes, scopes)
       && principal.entityType == User
       && Consent(principal.id, client.clientId, uri, NormalizeScopes(scopes)) in s.consents
  }

  /** A code is issued exactly to a user who consented to what is asked for, and carries it. */
  lemma AuthorizeIff(cfg: Config, s: Service, keyId: Id, principal: Owner, request: AuthorizationRequest, now: int,
                     code: string)
    ensures Authorize(cfg, s, keyId, principal, request, now, code).Ok? <==>
            exists uri, scopes :: MayAuthorize(cfg, s, principal, request, uri, scopes)
    ensures forall uri, scopes :: MayAuthorize(cfg, s, principal, request, uri, scopes) ==>
      Authorize(cfg, s, keyId, principal, request, now, code) ==
      Ok(s.(codes := s.codes + [Code(cfg.codeHash(code), request.clientId, keyId, uri, scopes, request.resource,
                                     request.challenge, now + cfg.codeTtl, false)]))
  {
    if request.clientId in s.clients {
      var client := s.clients[request.clientId];
      GrantsIff(Requested(request.scope), client.allowedScopes);
      var uri := ResolveRedirectUri(request, client);
      assert forall u :: Redirects(request, client, u) <==> uri == Ok(u);
      if Authorize(cfg, s, keyId, principal, request, now, code).Ok? {
        assert MayAuthorize(cfg, s, principal, request, uri.value,
                            IntersectScopes(Requested(request.scope), client.allowedScopes));
      }
    }
  }

  // ---------------------------------------------------------------- the code grant

  /** The row is the first with the presented code's hash. */
  predicate Selects(cfg: Config, s: Service, request: CodeRequest, row: nat) {
    && row < |s.codes| && s.codes[row].hash == cfg.codeHash(request.code)
    && forall j :: 0 <= j < row ==> s.codes[j].hash != cfg.codeHash(request.code)
  }

  /** The code is fresh, its key still represents somebody, the caller is its client, what the
      caller repeats of the authorization agrees with it, and its challenge is met. */
  predicate MayRedeem(cfg: Config, s: Service, request: CodeRequest, auth: Option<ClientAuth>, now: int, row: nat) {
    && Selects(cfg, s, request, row)
    && var code := s.codes[row];
       && !code.consumed && now <= code.expiresAt
       && code.keyId in s.owners && Represents(s, code.keyId, s.owners[code.keyId])
       && Admitted(s, code.clientId, auth, AuthorizationCode)
       && request.code != "" && request.verifier != ""
       && (request.clientId == None || request.clientId == Some(code.clientId))
       && (request.redirectUri == None || request.redirectUri == Some(code.redirectUri))
       && (code.challenge == None || code.challenge == Some(cfg.s256(request.verifier)))
  }

  lemma {:induction false} FindCodeFirst(codes: seq<Code>, hash: string)
    ensures var row := FindCode(codes, hash);
            row.Some? ==> forall j :: 0 <= j < row.value ==> codes[j].hash != hash
  {
    if codes != [] && codes[0].hash != hash {
      FindCodeFirst(codes[1..], hash);
      var rest := FindCode(codes[1..], hash);
      if rest.Some? {
        assert forall j :: 0 < j < rest.value + 1 ==> codes[j] == codes[1..][j - 1];
      }
    }
  }

  lemma SelectsIff(cfg: Config, s: Service, request: CodeRequest, row: nat)
    ensures Selects(cfg, s, request, row) <==> FindCode(s.codes, cfg.codeHash(request.code)) == Some(row)
  {
    FindCodeFirst(s.codes, cfg.codeHash(request.code));
  }

  lemma CheckCodeIff(cfg: Config, s: Service, request: CodeRequest, auth: Option<ClientAuth>, now: int, row: nat)
    ensures CheckCode(cfg, s, request, auth, now) == Ok(row) <==> MayRedeem(cfg, s, request, auth, now, row)
  {
    SelectsIff(cfg, s, request, row);
    if Selects(cfg, s, request, row) {
      var code := s.codes[row];
      if code.keyId in s.owners { RepresentsIff(s, code.keyId, s.owners[code.keyId]); }
      AdmittedIff(s, code.clientId, auth, AuthorizationCode);
    }
  }

  /** A code that may be redeemed is consumed, and yields tokens exactly when its key represents a
      user and can sign; they carry what the code carries. */
  lemma RedeemIff(cfg: Config, s: Service, request: CodeRequest, auth: Option<ClientAuth>, now: int, signs: bool,
                  row: nat)
    requires MayRedeem(cfg, s, request, auth, now, row)
    ensures var r := RedeemCode(cfg, s, request, auth, now, signs); var code := s.codes[row];
            var consumed := s.(codes := s.codes[row := code.(consumed := true)]);
            if s.owners[code.keyId].entityType == User && signs then
              var t := Tokens(s.clients[code.clientId].clientId, s.owners[code.keyId].id, code.keyId, code.scopes,
                              code.resource, s.clients[code.clientId].clientId, now, FromCode(row, request.verifier));
              r == (consumed.(tokens := s.tokens + [t]), Ok(t))
            else r.0 == consumed && r.1.Err?
  {
    CheckCodeIff(cfg, s, request, auth, now, row);
    RepresentsIff(s, s.codes[row].keyId, s.owners[s.codes[row].keyId]);
  }

  /** Otherwise nothing happens. */
  lemma RedeemRefused(cfg: Config, s: Service, request: CodeRequest, auth: Option<ClientAuth>, now: int, signs: bool)
    requires forall row :: !MayRedeem(cfg, s, request, auth, now, row)
    ensures RedeemCode(cfg, s, request, auth, now, signs).0 == s
    ensures RedeemCode(cfg, s, request, auth, now, signs).1.Err?
  {
    var checked := CheckCode(cfg, s, request, auth, now);
    if checked.Ok? { CheckCodeIff(cfg, s, request, auth, now, checked.value); }
  }

  // ---------------------------------------------------------------- password

  predicate MayPassword(s: Service, clientId: string, auth: Option<ClientAuth>, user: Option<Id>, verified: bool,
                        keyId: Id, signs: bool) {
    && Admitted(s, clientId, auth, Password)
    && user.Some? && verified && Represents(s, keyId, Owner(User, user.value)) && signs
  }

  /** The password grant succeeds exactly for a verified password of a user with an active root
      key and an admitted client; it adds one response, for that user and client. */
  lemma PasswordIff(s: Service, clientId: string, auth: Option<ClientAuth>, user: Option<Id>, verified: bool, keyId: Id,
                    scope: Option<string>, resource: Option<string>, now: int, signs: bool)
    ensures var r := PasswordGrant(s, clientId, auth, user, verified, keyId, scope, resource, now, signs);
            && (r.Ok? <==> MayPassword(s, clientId, auth, user, verified, keyId, signs))
            && (r.Ok? ==>
                  var client := s.clients[clientId];
                  var scopes := r.value.tokens[|r.value.tokens| - 1].scopes;
                  && Narrows(Requested(scope), client.allowedScopes, scopes)
                  && Added(s, r.value, Tokens(client.clientId, user.value, keyId, scopes, resource, client.clientId,
                                              now, FromPassword)))
            && (Admitted(s, clientId, auth, Password) && !(user.Some? && verified) ==> r.error.code == InvalidGrant)
  {
    AdmittedIff(s, clientId, auth, Password);
    if user.Some? { RepresentsIff(s, keyId, Owner(User, user.value)); }
    if clientId in s.clients { IntersectNarrows(Requested(scope), s.clients[clientId].allowedScopes); }
  }

  // ---------------------------------------------------------------- client credentials

  predicate MayCredentials(s: Service, clientId: string, auth: Option<ClientAuth>, audience: Option<string>, keyId: Id,
                           scope: Option<string>, resource: Option<string>, now: int, signs: bool) {
    && auth.Some? && auth.value.clientId == clientId && Admitted(s, clientId, auth, ClientCredentials)
    && var client := s.clients[clientId];
       && client.clientType == Confidential
       && (client.secretExpiresAt.Some? && client.secretExpiresAt.value > 0 ==> now < client.secretExpiresAt.value)
       && audience.Some? && audience.value in client.allowedAudiences && (resource == None || resource == audience)
       && Requested(scope) != [] && Grants(Requested(scope), client.allowedScopes, Requested(scope))
       && Represents(s, keyId, Owner(ClientEntity, client.id)) && signs
  }

  /** Client credentials are granted exactly to a confidential client with an unexpired secret, an
      allowed audience, allowed scopes and an active root key. */
  lemma CredentialsIff(s: Service, clientId: string, auth: Option<ClientAuth>, audience: Option<string>, keyId: Id,
                       scope: Option<string>, resource: Option<string>, now: int, signs: bool)
    ensures var r := ClientCredentialsGrant(s, clientId, auth, audience, keyId, scope, resource, now, signs);
            && (r.Ok? <==> MayCredentials(s, clientId, auth, audience, keyId, scope, resource, now, signs))
            && (r.Ok? ==> var client := s.clients[clientId];
                          Added(s, r.value, Tokens(client.clientId, client.id, keyId, Requested(scope), resource,
                                                   audience.value, now, FromClientCredentials)))
  {
    AdmittedIff(s, clientId, auth, ClientCredentials);
    if clientId in s.clients {
      RepresentsIff(s, keyId, Owner(ClientEntity, s.clients[clientId].id));
      GrantsIff(Requested(scope), s.clients[clientId].allowedScopes);
    }
  }

  // ---------------------------------------------------------------- refresh

  predicate MayRefresh(s: Service, presented: Option<RefreshClaims>, auth: Option<ClientAuth>, scope: Option<string>,
                       now: int, signs: bool) {
    && presented.Some?
    && var claims := presented.value;
       && claims.isRefresh && now <= claims.expiresAt
       && claims.keyId.Some? && RepresentsUser(s, claims.keyId.value)
       && Admitted(s, claims.clientId, auth, RefreshToken)
       && (forall x :: x in Requested(scope) ==> x in claims.scopes) && signs
  }

  lemma RefreshLookups(s: Service, claims: RefreshClaims, auth: Option<ClientAuth>, scope: Option<string>)
    ensures Admitted(s, claims.clientId, auth, RefreshToken) <==>
            claims.clientId in s.clients && GrantAllowed(s.clients[claims.clientId], RefreshToken) &&
            Authenticated(s.clients[claims.clientId], auth)
    ensures claims.keyId.Some? && claims.keyId.value in s.owners ==>
      var owner := s.owners[claims.keyId.value];
      FindPrincipal(s, claims.keyId.value) == Some(owner) <==> Represents(s, claims.keyId.value, owner)
    ensures Elements(Requested(scope)) <= Elements(claims.scopes) <==>
            forall x :: x in Requested(scope) ==> x in claims.scopes
  {
    AdmittedIff(s, claims.clientId, auth, RefreshToken);
    if claims.keyId.Some? && claims.keyId.value in s.owners {
      RepresentsIff(s, claims.keyId.value, s.owners[claims.keyId.value]);
    }
    SubsetIff(Requested(scope), claims.scopes);
  }

  /** A refresh succeeds exactly for unexpired refresh claims of an admitted client whose key
      represents a user, and a request within their scopes. */
  lemma RefreshIff(s: Service, presented: Option<RefreshClaims>, auth: Option<ClientAuth>, scope: Option<string>,
                   now: int, signs: bool)
    ensures Refresh(s, presented, auth, scope, now, signs).Ok? <==> MayRefresh(s, presented, auth, scope, now, signs)
  {
    if presented.Some? { RefreshLookups(s, presented.value, auth, scope); }
  }

  /** It then adds one response, within the claims. */
  lemma RefreshAdded(s: Service, presented: Option<RefreshClaims>, auth: Option<ClientAuth>, scope: Option<string>,
                     now: int, signs: bool)
    requires Refresh(s, presented, auth, scope, now, signs).Ok?
    ensures var claims := presented.value; var client := s.clients[claims.clientId];
            var scopes := if Requested(scope) == [] then claims.scopes else Requested(scope);
            Added(s, Refresh(s, presented, auth, scope, now, signs).value,
                  Tokens(client.clientId, s.owners[claims.keyId.value].id, claims.keyId.value, scopes,
                         claims.resource, client.clientId, now, FromRefresh(claims)))
  {
  }

  // ---------------------------------------------------------------- exchange

  predicate MayExchange(cfg: Config, s: Service, i: nat, auth: Option<ClientAuth>, detailsValid: bool, now: int,
                        signs: bool)
    requires i < |s.tokens|
  {
    var token := s.tokens[i];
    && Decodable(token.scopes) && RepresentsUser(s, token.keyId) && signs
    && token.issuedAt <= now < token.issuedAt + cfg.tokenTtl && token.audience != ""
    && Admitted(s, token.clientId, auth, TokenExchange) && detailsValid
  }

  /** An exchange succeeds exactly for a readable access token within its lifetime, of an admitted
      client, whose key represents a user. */
  lemma ExchangeIff(cfg: Config, s: Service, i: nat, auth: Option<ClientAuth>, scope: Option<string>,
                    resource: Option<string>, detailsValid: bool, now: int, signs: bool)
    requires i < |s.tokens|
    ensures Exchange(cfg, s, i, auth, scope, resource, detailsValid, now, signs).Ok? <==>
            MayExchange(cfg, s, i, auth, detailsValid, now, signs)
  {
    var token := s.tokens[i];
    AdmittedIff(s, token.clientId, auth, TokenExchange);
    if token.keyId in s.owners { RepresentsIff(s, token.keyId, s.owners[token.keyId]); }
  }

  /** It then adds one response, within the token's scopes. */
  lemma ExchangeAdded(cfg: Config, s: Service, i: nat, auth: Option<ClientAuth>, scope: Option<string>,
                      resource: Option<string>, detailsValid: bool, now: int, signs: bool)
    requires i < |s.tokens| && Exchange(cfg, s, i, auth, scope, resource, detailsValid, now, signs).Ok?
    ensures var s' := Exchange(cfg, s, i, auth, scope, resource, detailsValid, now, signs).value;
            var token := s.tokens[i]; var client := s.clients[token.clientId];
            var target := if resource.Some? then resource else token.resource;
            var scopes := s'.tokens[|s'.tokens| - 1].scopes;
            && Narrows(Requested(scope), token.scopes, scopes)
            && Added(s, s', Tokens(client.clientId, s.owners[token.keyId].id, token.keyId, scopes, target,
                                   if target.Some? then target.value else client.clientId, now, FromExchange(i)))
  {
    IntersectNarrows(Requested(scope), s.tokens[i].scopes);
  }

  // ---------------------------------------------------------------- every token of every run

  /** The step grants tokens with this origin, and its conditions hold. */
  ghost predicate Earned(cfg: Config, s: Service, step: Step, t: Tokens) {
    match t.origin
    case FromCode(row, verifier) =>
      && step.DoRedeem? && step.signs && step.redeem.verifier == verifier
      && MayRedeem(cfg, s, step.redeem, step.auth, step.now, row) && s.codes[row].keyId == t.keyId
      && RepresentsUser(s, t.keyId)
    case FromPassword =>
      && step.DoPassword? && step.user == Some(t.subject) && step.keyId == t.keyId
      && MayPassword(s, step.clientId, step.auth, step.user, step.verified, step.keyId, step.signs)
    case FromClientCredentials =>
      && step.DoClientCredentials? && step.keyId == t.keyId
      && MayCredentials(s, step.clientId, step.auth, step.audience, step.keyId, step.scope, step.resource, step.now,
                        step.signs)
    case FromRefresh(claims) =>
      && step.DoRefresh? && step.presented == Some(claims)
      && MayRefresh(s, step.presented, step.auth, step.scope, step.now, step.signs)
    case FromExchange(parent) =>
      && step.DoExchange? && step.token == parent && parent < |s.tokens|
      && MayExchange(cfg, s, parent, step.auth, step.detailsValid, step.now, step.signs)
  }

  /** A step leaves the tokens as they are, or adds one response that it has earned. */
  ghost predicate EarnsAtMostOne(cfg: Config, s: Service, step: Step, s': Service) {
    s'.tokens == s.tokens ||
    (|s'.tokens| == |s.tokens| + 1 && s'.tokens == s.tokens + [s'.tokens[|s.tokens|]] &&
     Earned(cfg, s, step, s'.tokens[|s.tokens|]))
  }

  lemma RowEarns(cfg: Config, s: Service, step: Step, row: nat)
    requires step.DoRedeem? && MayRedeem(cfg, s, step.redeem, step.auth, step.now, row)
    ensures EarnsAtMostOne(cfg, s, step, RedeemCode(cfg, s, step.redeem, step.auth, step.now, step.signs).0)
  {
    RedeemIff(cfg, s, step.redeem, step.auth, step.now, step.signs, row);
  }

  lemma RedeemEarns(cfg: Config, s: Service, step: Step)
    requires step.DoRedeem?
    ensures EarnsAtMostOne(cfg, s, step, Apply(cfg, s, step))
  {
    var checked := CheckCode(cfg, s, step.redeem, step.auth, step.now);
    if checked.Ok? {
      CheckCodeIff(cfg, s, step.redeem, step.auth, step.now, checked.value);
      RowEarns(cfg, s, step, checked.value);
    } else {
      assert Apply(cfg, s, step) == s;
    }
  }

  lemma PasswordEarns(cfg: Config, s: Service, step: Step)
    requires step.DoPassword?
    ensures EarnsAtMostOne(cfg, s, step, Apply(cfg, s, step))
  {
    PasswordIff(s, step.clientId, step.auth, step.user, step.verified, step.keyId, step.scope, step.resource, step.now,
                step.signs);
  }

  lemma CredentialsEarn(cfg: Config, s: Service, step: Step)
    requires step.DoClientCredentials?
    ensures EarnsAtMostOne(cfg, s, step, Apply(cfg, s, step))
  {
    CredentialsIff(s, step.clientId, step.auth, step.audience, step.keyId, step.scope, step.resource, step.now,
                   step.signs);
  }

  lemma RefreshEarns(cfg: Config, s: Service, step: Step)
    requires step.DoRefresh?
    ensures EarnsAtMostOne(cfg, s, step, Apply(cfg, s, step))
  {
    RefreshIff(s, step.presented, step.auth, step.scope, step.now, step.signs);
    if Refresh(s, step.presented, step.auth, step.scope, step.now, step.signs).Ok? {
      RefreshAdded(s, step.presented, step.auth, step.scope, step.now, step.signs);
    }
  }

  lemma ExchangeEarns(cfg: Config, s: Service, step: Step)
    requires step.DoExchange? && Enabled(s, step)
    ensures EarnsAtMostOne(cfg, s, step, Apply(cfg, s, step))
  {
    ExchangeIff(cfg, s, step.token, step.auth, step.scope, step.resource, step.detailsValid, step.now, step.signs);
    if Exchange(cfg, s, step.token, step.auth, step.scope, step.resource, step.detailsValid, step.now, step.signs).Ok? {
      ExchangeAdded(cfg, s, step.token, step.auth, step.scope, step.resource, step.detailsValid, step.now, step.signs);
    }
  }

  lemma StepEarns(cfg: Config, s: Service, step: Step)
    requires Enabled(s, step)
    ensures EarnsAtMostOne(cfg, s, step, Apply(cfg, s, step))
  {
    match step
    case DoRedeem(_, _, _, _) => RedeemEarns(cfg, s, step);
    case DoPassword(_, _, _, _, _, _, _, _, _) => PasswordEarns(cfg, s, step);
    case DoClientCredentials(_, _, _, _, _, _, _, _) => CredentialsEarn(cfg, s, step);
    case DoRefresh(_, _, _, _, _) => RefreshEarns(cfg, s, step);
    case DoExchange(_, _, _, _, _, _, _) => ExchangeEarns(cfg, s, step);
    case _ => assert Apply(cfg, s, step).tokens == s.tokens;
  }

  lemma {:induction false} TokensStay(cfg: Config, s: Service, run: seq<Step>)
    requires IsRun(cfg, s, run)
    ensures s.tokens <= After(cfg, s, run).tokens
    decreases |run|
  {
    if run != [] {
      StepEarns(cfg, s, run[0]);
      TokensStay(cfg, Apply(cfg, s, run[0]), run[1..]);
    }
  }

  /** The n-th step of the run finds i responses and earns the next. */
  ghost predicate EarnedAt(cfg: Config, s: Service, run: seq<Step>, n: nat, i: nat, t: Tokens) {
    && n < |run| && IsRun(cfg, s, run[..n])
    && var before := After(cfg, s, run[..n]);
       |before.tokens| == i && Enabled(before, run[n]) && Earned(cfg, before, run[n], t) &&
       Apply(cfg, before, run[n]).tokens == before.tokens + [t]
  }

  lemma {:induction false} EarnedLater(cfg: Config, s: Service, run: seq<Step>, n: nat, i: nat, t: Tokens)
    requires run != [] && Enabled(s, run[0]) && EarnedAt(cfg, Apply(cfg, s, run[0]), run[1..], n, i, t)
    ensures EarnedAt(cfg, s, run, n + 1, i, t)
  {
    var some := run[..n + 1];
    assert some[0] == run[0] && some[1..] == run[1..][..n] && run[1..][n] == run[n + 1];
  }

  /** In every run every response stems from one step, whose conditions held when it was taken: a
      verified password, an unexpired and unconsumed code with its verifier, a client's secret,
      unexpired refresh claims, or an access token within its lifetime. */
  lemma {:induction false} TokensAreEarned(cfg: Config, s: Service, run: seq<Step>, i: nat) returns (n: nat)
    requires IsRun(cfg, s, run) && |s.tokens| <= i < |After(cfg, s, run).tokens|
    ensures EarnedAt(cfg, s, run, n, i, After(cfg, s, run).tokens[i])
    decreases |run|
  {
    var next := Apply(cfg, s, run[0]);
    StepEarns(cfg, s, run[0]);
    TokensStay(cfg, next, run[1..]);
    if i < |next.tokens| {
      n := 0;
      assert run[..0] == [];
    } else {
      n := TokensAreEarned(cfg, next, run[1..], i);
      EarnedLater(cfg, s, run, n, i, After(cfg, s, run).tokens[i]);
      n := n + 1;
    }
  }
}
