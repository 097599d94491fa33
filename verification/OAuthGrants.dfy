/** The OAuth grant machine: consent, authorization codes, tokens, refresh and exchange.

    `Service` holds the repositories and two logs, of approvals and of issued tokens. A
    request is a function of the repositories; requests are handled one after another. A
    token exchange verifies the presented token's signature, so there it is one the service
    issued, named by its place in the log. A refresh only decodes the presented token, so
    there its claims are arbitrary. Code hashing and the S256 digest are arbitrary functions. */
module OAuthGrants {
  import opened Text
  import opened Scopes
  import opened ScopeClaims

  type Id = nat

  datatype ErrorCode =
    | InvalidClient | InvalidRequest | InvalidGrant | InvalidScope | InvalidResponseType
    | AccessDenied | UnauthorizedClient | NotFound | ServerError

  datatype Error = Error(code: ErrorCode, description: string)

  const ApprovalRequired := Error(AccessDenied, "client approval required")

  datatype ClientType = Confidential | Public

  datatype GrantType = Password | AuthorizationCode | ClientCredentials | RefreshToken | TokenExchange

  datatype AuthMethod = ClientSecretBasic | ClientSecretPost | PrivateKeyJwt | ClientSecretJwt | NoMethod

  datatype Client = Client(
    id: Id,
    clientId: string,
    secret: string,
    clientType: ClientType,
    authMethod: AuthMethod,
    grantTypes: seq<GrantType>,
    codeResponse: bool, // response_types is empty or lists the code response
    redirectUris: seq<string>,
    allowedScopes: seq<string>,
    allowedAudiences: seq<string>,
    secretExpiresAt: Option<int>)

  datatype ClientAuth = ClientAuth(clientId: string, secret: Option<string>, authMethod: AuthMethod)

  datatype EntityType = User | ClientEntity

  datatype Owner = Owner(entityType: EntityType, id: Id)

  datatype Consent = Consent(user: Id, clientId: string, redirectUri: string, scopeKey: string)

  /** One successful call of `approve_for_user`, with the scopes it was given for. */
  datatype Approval = Approval(user: Id, clientId: string, redirectUri: string, scopes: seq<string>)

  datatype Code = Code(
    hash: string,
    clientId: string,
    keyId: Id,
    redirectUri: string,
    scopes: seq<string>,
    resource: Option<string>,
    challenge: Option<string>,
    expiresAt: int,
    consumed: bool)

  datatype Origin =
    | FromCode(row: nat, verifier: string)
    | FromPassword
    | FromClientCredentials
    | FromRefresh(presented: RefreshClaims)
    | FromExchange(parent: nat)

  /** What a presented refresh token says; `keyId` is `None` when its key id does not parse. */
  datatype RefreshClaims = RefreshClaims(
    isRefresh: bool,
    expiresAt: int,
    keyId: Option<Id>,
    clientId: string,
    scopes: seq<string>,
    resource: Option<string>)

  /** The claims common to the tokens of one response; a client-credentials response has no
      refresh token. */
  datatype Tokens = Tokens(
    clientId: string,
    subject: Id,
    keyId: Id,
    scopes: seq<string>,
    resource: Option<string>,
    audience: string,
    issuedAt: int,
    origin: Origin)

  datatype Service = Service(
    clients: map<string, Client>,
    users: set<Id>,
    owners: map<Id, Owner>,   // every signing key ever created, with its entity
    active: set<Id>,          // the keys neither revoked, expired nor deleted
    roots: set<Id>,           // the active root key of each entity
    consents: set<Consent>,
    codes: seq<Code>,
    approvals: seq<Approval>,
    tokens: seq<Tokens>)

  datatype Config = Config(
    requirePkce: bool,
    codeTtl: nat,
    tokenTtl: nat,
    refreshTtl: nat,
    codeHash: string -> string,
    s256: string -> string)

  const Empty := Service(map[], {}, map[], {}, {}, {}, [], [], [])

  // ---------------------------------------------------------------- shared checks

  function Requested(scope: Option<string>): seq<string> {
    if scope.Some? then ParseScopes(scope.value) else []
  }

  /** `find_principal`: the entity of a key that is its active root and still exists. */
  function FindPrincipal(s: Service, keyId: Id): Option<Owner> {
    if keyId !in s.owners || keyId !in s.active || keyId !in s.roots then None
    else match s.owners[keyId]
      case Owner(User, id) => if id in s.users then Some(s.owners[keyId]) else None
      case Owner(ClientEntity, id) =>
        if exists c :: c in s.clients && s.clients[c].id == id then Some(s.owners[keyId]) else None
  }

  predicate GrantAllowed(client: Client, grant: GrantType) {
    client.grantTypes == [] || grant in client.grantTypes
  }

  /** `authenticate_client_for_token_endpoint`. */
  predicate Authenticated(client: Client, auth: Option<ClientAuth>) {
    match client.clientType
    case Public => auth.Some? ==> auth.value.clientId == client.clientId
    case Confidential =>
      && auth.Some? && auth.value.clientId == client.clientId
      && auth.value.authMethod == client.authMethod
      && (auth.value.authMethod == ClientSecretBasic || auth.value.authMethod == ClientSecretPost)
      && auth.value.secret == Some(client.secret)
  }

  // ---------------------------------------------------------------- consent

  datatype ApproveRequest = ApproveRequest(clientId: string, redirectUri: string, scope: string)

  /** `approve_for_user` by the principal of `keyId`. */
  function Approve(s: Service, principal: Owner, request: ApproveRequest): Result<Service, Error> {
    if principal.entityType != User then Err(Error(AccessDenied, "only users can approve clients"))
    else if request.clientId !in s.clients then Err(Error(InvalidClient, "client not found"))
    else
      var client := s.clients[request.clientId];
      var requested := ParseScopes(request.scope);
      if request.redirectUri !in client.redirectUris then
        Err(Error(InvalidRequest, "redirect_uri is not allowed for this client"))
      else if !ScopesAllowed(requested, client.allowedScopes) then Err(Error(InvalidScope, ""))
      else
        var scopes := IntersectScopes(requested, client.allowedScopes);
        Ok(s.(consents := s.consents +
              {Consent(principal.id, client.clientId, request.redirectUri, NormalizeScopes(scopes))},
              approvals := s.approvals + [Approval(principal.id, client.clientId, request.redirectUri, scopes)]))
  }

  datatype AuthorizationRequest = AuthorizationRequest(
    clientId: string,
    redirectUri: Option<string>,
    scope: Option<string>,
    resource: Option<string>,
    challenge: Option<string>,
    s256Method: bool) // code_challenge_method is given; S256 is the only one

  function ResolveRedirectUri(request: AuthorizationRequest, client: Client): Result<string, Error> {
    match request.redirectUri
    case Some(uri) =>
      if uri in client.redirectUris then Ok(uri)
      else Err(Error(InvalidRequest, "redirect_uri is not registered for this client"))
    case None =>
      if |client.redirectUris| == 1 then Ok(client.redirectUris[0])
      else Err(Error(InvalidRequest, "redirect_uri is required when multiple redirect URIs are registered"))
  }

  predicate PkceAcceptable(request: AuthorizationRequest, client: Client, requirePkce: bool) {
    && (request.challenge.Some? <==> request.s256Method)
    && (request.challenge == None ==> !requirePkce && client.clientType != Public)
  }

  /** `authorize`; `code` is the generated code. */
  function Authorize(cfg: Config, s: Service, keyId: Id, principal: Owner, request: AuthorizationRequest, now: int,
                     code: string)
    : Result<Service, Error>
  {
    if request.clientId !in s.clients then Err(Error(InvalidClient, "client not found"))
    else
      var client := s.clients[request.clientId];
      var uri := ResolveRedirectUri(request, client);
      var requested := Requested(request.scope);
      if request.clientId != client.clientId then Err(Error(InvalidClient, ""))
      else if !client.codeResponse then Err(Error(InvalidResponseType, ""))
      else if uri.Err? then Err(uri.error)
      else if !PkceAcceptable(request, client, cfg.requirePkce) then Err(Error(InvalidRequest, ""))
      else if !ScopesAllowed(requested, client.allowedScopes) then Err(Error(InvalidScope, ""))
      else
        var scopes := IntersectScopes(requested, client.allowedScopes);
        if principal.entityType != User then Err(Error(AccessDenied, "only users can authorize clients"))
        else if Consent(principal.id, client.clientId, uri.value, NormalizeScopes(scopes)) !in s.consents then
          Err(ApprovalRequired)
        else
          Ok(s.(codes := s.codes + [Code(cfg.codeHash(code), client.clientId, keyId, uri.value, scopes,
                                         request.resource, request.challenge, now + cfg.codeTtl, false)]))
  }

  // ---------------------------------------------------------------- token grants

  /** `issue_tokens_for_client`; `signs` says whether the signing key can be loaded. */
  function Issue(s: Service, client: Client, keyId: Id, principal: Owner, scopes: seq<string>,
                 resource: Option<string>, audience: Option<string>, now: int, signs: bool, origin: Origin)
    : Result<Service, Error>
  {
    if principal.entityType != User then
      Err(Error(AccessDenied, "this grant cannot issue user tokens to a client principal"))
    else if !signs then Err(Error(ServerError, "signing key not found"))
    else Ok(s.(tokens := s.tokens + [Tokens(client.clientId, principal.id, keyId, scopes, resource,
                                                 if audience.Some? then audience.value else client.clientId,
                                         now, origin)]))
  }

  datatype CodeRequest =
    CodeRequest(code: string, verifier: string, clientId: Option<string>, redirectUri: Option<string>)

  /** The row a presented code selects: the first with its hash. */
  function FindCode(codes: seq<Code>, hash: string): (row: Option<nat>)
    ensures row.Some? ==> row.value < |codes| && codes[row.value].hash == hash
    ensures row == None ==> forall i :: 0 <= i < |codes| ==> codes[i].hash != hash
  {
    if codes == [] then None
    else if codes[0].hash == hash then Some(0)
    else match FindCode(codes[1..], hash)
      case None => None
      case Some(i) => Some(i + 1)
  }

  /** Everything `authorization_code` checks before it consumes the code. */
  function CheckCode(cfg: Config, s: Service, request: CodeRequest, auth: Option<ClientAuth>,
                     now: int): (r: Result<nat, Error>)
    ensures r.Ok? ==> Redeemable(s, r.value)
  {
    match FindCode(s.codes, cfg.codeHash(request.code))
    case None => Err(Error(InvalidGrant, "authorization code not found"))
    case Some(row) =>
      var code := s.codes[row];
      if code.consumed then Err(Error(InvalidGrant, "authorization code already consumed"))
      else if code.expiresAt < now then Err(Error(InvalidGrant, "authorization code expired"))
      else if FindPrincipal(s, code.keyId) == None then
        Err(Error(InvalidGrant, "principal not found for authorization code"))
      else if code.clientId !in s.clients then Err(Error(InvalidClient, "client not found"))
      else if !GrantAllowed(s.clients[code.clientId], AuthorizationCode) then Err(Error(UnauthorizedClient, ""))
      else if !Authenticated(s.clients[code.clientId], auth) then Err(Error(InvalidClient, ""))
      else if request.code == "" || request.verifier == "" then Err(Error(InvalidRequest, ""))
      else if request.clientId.Some? && request.clientId.value != code.clientId then Err(Error(InvalidClient, ""))
      else if request.redirectUri.Some? && request.redirectUri.value != code.redirectUri then
        Err(Error(InvalidGrant, "redirect_uri does not match the authorization request"))
      else if code.challenge.Some? && cfg.s256(request.verifier) != code.challenge.value then
        Err(Error(InvalidGrant, ""))
      else Ok(row)
  }

  /** The row is an unconsumed code of a client and a principal that exist. */
  predicate Redeemable(s: Service, row: nat) {
    row < |s.codes| && !s.codes[row].consumed && s.codes[row].clientId in s.clients &&
    FindPrincipal(s, s.codes[row].keyId).Some?
  }

  function MarkConsumed(codes: seq<Code>, row: nat): seq<Code>
    requires row < |codes|
  {
    codes[row := codes[row].(consumed := true)]
  }

  /** The code is consumed first, then tokens are issued; a failure to issue leaves the code
      consumed. */
  function RedeemRow(s: Service, row: nat, verifier: string, now: int, signs: bool): (Service, Result<Tokens, Error>)
    requires Redeemable(s, row)
  {
    var code := s.codes[row];
    var consumed := s.(codes := MarkConsumed(s.codes, row));
    match Issue(consumed, s.clients[code.clientId], code.keyId, FindPrincipal(s, code.keyId).value, code.scopes,
                code.resource, None, now, signs, FromCode(row, verifier))
    case Err(e) => (consumed, Err(e))
    case Ok(issued) => (issued, Ok(issued.tokens[|issued.tokens| - 1]))
  }

  /** `authorization_code`. */
  function RedeemCode(cfg: Config, s: Service, request: CodeRequest, auth: Option<ClientAuth>, now: int, signs: bool)
    : (Service, Result<Tokens, Error>)
  {
    match CheckCode(cfg, s, request, auth, now)
    case Err(e) => (s, Err(e))
    case Ok(row) => RedeemRow(s, row, request.verifier, now, signs)
  }

  /** `password`; the user directory's answers are parameters: the user of that name, whether the
      password is theirs, and their key. */
  function PasswordGrant(s: Service, clientId: string, auth: Option<ClientAuth>, user: Option<Id>, verified: bool,
                         keyId: Id, scope: Option<string>, resource: Option<string>, now: int, signs: bool)
    : Result<Service, Error>
  {
    if clientId !in s.clients then Err(Error(InvalidClient, ""))
    else
      var client := s.clients[clientId];
      if !GrantAllowed(client, Password) then Err(Error(UnauthorizedClient, ""))
      else if !Authenticated(client, auth) then Err(Error(InvalidClient, ""))
      else if user == None then Err(Error(InvalidGrant, "user not found"))
      else if !verified then Err(Error(InvalidGrant, "invalid username or password"))
      else if keyId !in s.owners || s.owners[keyId] != Owner(User, user.value) then
        Err(Error(InvalidGrant, "user key not found"))
      else match FindPrincipal(s, keyId)
        case None => Err(Error(InvalidGrant, "principal not found for user"))
        case Some(principal) =>
          Issue(s, client, keyId, principal, IntersectScopes(Requested(scope), client.allowedScopes),
                resource, None, now, signs, FromPassword)
  }

  /** `client_credentials`. */
  function ClientCredentialsGrant(s: Service, clientId: string, auth: Option<ClientAuth>, audience: Option<string>,
                                  keyId: Id, scope: Option<string>, resource: Option<string>, now: int, signs: bool)
    : Result<Service, Error>
  {
    if auth == None || auth.value.clientId !in s.clients then Err(Error(InvalidClient, ""))
    else
      var client := s.clients[auth.value.clientId];
      var requested := Requested(scope);
      if !GrantAllowed(client, ClientCredentials) || client.clientType != Confidential then
        Err(Error(UnauthorizedClient, ""))
      else if client.secretExpiresAt.Some? && 0 < client.secretExpiresAt.value <= now then
        Err(Error(InvalidClient, "client credentials have expired"))
      else if !Authenticated(client, auth) || clientId != auth.value.clientId then Err(Error(InvalidClient, ""))
      else if audience == None || audience.value !in client.allowedAudiences then Err(Error(InvalidRequest, ""))
      else if resource.Some? && resource != audience then Err(Error(InvalidRequest, ""))
      else if requested == [] || !ScopesAllowed(requested, client.allowedScopes) then Err(Error(InvalidScope, ""))
      else if FindPrincipal(s, keyId) != Some(Owner(ClientEntity, client.id)) then Err(Error(InvalidClient, ""))
      else if !signs then Err(Error(ServerError, ""))
      else Ok(s.(tokens := s.tokens +
               [Tokens(client.clientId, client.id, keyId, requested, resource, audience.value, now,
                       FromClientCredentials)]))
  }

  /** `refresh_token`; nothing is known of what is presented, which may not even decode. */
  function Refresh(s: Service, presented: Option<RefreshClaims>, auth: Option<ClientAuth>, scope: Option<string>,
                   now: int, signs: bool): Result<Service, Error>
  {
    if presented == None then Err(Error(InvalidRequest, "invalid JWT"))
    else
      var claims := presented.value;
      if !claims.isRefresh then Err(Error(InvalidGrant, "token is not a refresh token"))
      else if claims.expiresAt < now then Err(Error(InvalidGrant, "refresh token is expired"))
      else if claims.keyId == None then Err(Error(InvalidGrant, "invalid refresh token signing key"))
      else if claims.keyId.value !in s.owners || claims.keyId.value !in s.active then
        Err(Error(InvalidGrant, "refresh token signing key not found"))
      else if claims.clientId !in s.clients then Err(Error(InvalidClient, "client not found"))
      else
        var client := s.clients[claims.clientId];
        var requested := Requested(scope);
        if !GrantAllowed(client, RefreshToken) then Err(Error(UnauthorizedClient, ""))
        else if !Authenticated(client, auth) then Err(Error(InvalidClient, ""))
        else
          var scopes := if requested == [] then claims.scopes else IntersectScopes(requested, claims.scopes);
          if requested != [] && |scopes| != |requested| then
            Err(Error(InvalidScope, "requested scope must be a subset of refresh token scope"))
          else match FindPrincipal(s, claims.keyId.value)
            case None => Err(Error(InvalidGrant, "principal not found for refresh token"))
            case Some(principal) =>
              Issue(s, client, claims.keyId.value, principal, scopes, claims.resource, None,
                    now, signs, FromRefresh(claims))
  }

  /** `token_exchange`, presented with the access token of response `i`. */
  function Exchange(cfg: Config, s: Service, i: nat, auth: Option<ClientAuth>, scope: Option<string>,
                    resource: Option<string>, detailsValid: bool, now: int, signs: bool): Result<Service, Error>
    requires i < |s.tokens|
  {
    var token := s.tokens[i];
    var requested := Requested(scope);
    if !Decodable(token.scopes) then Err(Error(InvalidRequest, "invalid JWT claims"))
    else if token.keyId !in s.owners || token.keyId !in s.active then Err(Error(NotFound, "key not found"))
    else if token.keyId !in s.roots then Err(Error(InvalidGrant, "key is not the active entity root"))
    else if !signs then Err(Error(ServerError, "signing key not found in private key repository"))
    else if token.issuedAt + cfg.tokenTtl <= now || token.issuedAt > now || token.audience == "" then
      Err(Error(InvalidGrant, "invalid subject access token"))
    else if token.clientId !in s.clients then Err(Error(InvalidClient, "client not found"))
    else
      var client := s.clients[token.clientId];
      if !GrantAllowed(client, TokenExchange) then Err(Error(UnauthorizedClient, ""))
      else if !Authenticated(client, auth) then Err(Error(InvalidClient, ""))
      else
        var scopes := if requested == [] then token.scopes else IntersectScopes(requested, token.scopes);
        if !detailsValid then Err(Error(InvalidRequest, ""))
        else match FindPrincipal(s, token.keyId)
          case None => Err(Error(InvalidGrant, "principal not found for subject_token"))
          case Some(principal) =>
            var target := if resource.Some? then resource else token.resource;
            Issue(s, client, token.keyId, principal, scopes, target, target, now, signs, FromExchange(i))
  }

  // ---------------------------------------------------------------- runs

  datatype Step =
    | SetClient(client: Client)                    // registration and update
    | RemoveClient(clientId: string)
    | AddKey(keyId: Id, owner: Owner)              // key ids are fresh
    | SetKeys(active: set<Id>, roots: set<Id>)     // rotation, expiry, revocation, deletion
    | SetUsers(users: set<Id>)
    | RevokeConsent(consent: Consent)
    | DoApprove(keyId: Id, approve: ApproveRequest)
    | DoAuthorize(keyId: Id, authorization: AuthorizationRequest, now: int, code: string)
    | DoRedeem(redeem: CodeRequest, auth: Option<ClientAuth>, now: int, signs: bool)
    | DoPassword(clientId: string, auth: Option<ClientAuth>, user: Option<Id>, verified: bool, keyId: Id,
                 scope: Option<string>, resource: Option<string>, now: int, signs: bool)
    | DoClientCredentials(clientId: string, auth: Option<ClientAuth>, audience: Option<string>, keyId: Id,
                          scope: Option<string>, resource: Option<string>, now: int, signs: bool)
    | DoRefresh(presented: Option<RefreshClaims>, auth: Option<ClientAuth>, scope: Option<string>,
                now: int, signs: bool)
    | DoExchange(token: nat, auth: Option<ClientAuth>, scope: Option<string>, resource: Option<string>,
                 detailsValid: bool, now: int, signs: bool)

  predicate Enabled(s: Service, step: Step) {
    match step
    case AddKey(keyId, _) => keyId !in s.owners
    case DoApprove(keyId, _) => FindPrincipal(s, keyId).Some?
    case DoAuthorize(keyId, _, _, _) => FindPrincipal(s, keyId).Some?
    case DoExchange(i, _, _, _, _, _, _) => i < |s.tokens|
    case _ => true
  }

  function Kept(s: Service, r: Result<Service, Error>): Service {
    if r.Ok? then r.value else s
  }

  function Apply(cfg: Config, s: Service, step: Step): Service
    requires Enabled(s, step)
  {
    match step
    case SetClient(client) => s.(clients := s.clients[client.clientId := client])
    case RemoveClient(clientId) => s.(clients := s.clients - {clientId})
    case AddKey(keyId, owner) => s.(owners := s.owners[keyId := owner])
    case SetKeys(active, roots) => s.(active := active, roots := roots)
    case SetUsers(users) => s.(users := users)
    case RevokeConsent(consent) => s.(consents := s.consents - {consent})
    case DoApprove(keyId, request) => Kept(s, Approve(s, FindPrincipal(s, keyId).value, request))
    case DoAuthorize(keyId, request, now, code) =>
      Kept(s, Authorize(cfg, s, keyId, FindPrincipal(s, keyId).value, request, now, code))
    case DoRedeem(request, auth, now, signs) => RedeemCode(cfg, s, request, auth, now, signs).0
    case DoPassword(clientId, auth, user, verified, keyId, scope, resource, now, signs) =>
      Kept(s, PasswordGrant(s, clientId, auth, user, verified, keyId, scope, resource, now, signs))
    case DoClientCredentials(clientId, auth, audience, keyId, scope, resource, now, signs) =>
      Kept(s, ClientCredentialsGrant(s, clientId, auth, audience, keyId, scope, resource, now, signs))
    case DoRefresh(presented, auth, scope, now, signs) => Kept(s, Refresh(s, presented, auth, scope, now, signs))
    case DoExchange(i, auth, scope, resource, valid, now, signs) =>
      Kept(s, Exchange(cfg, s, i, auth, scope, resource, valid, now, signs))
  }

  predicate IsRun(cfg: Config, s: Service, run: seq<Step>)
    decreases |run|
  {
    run == [] || (Enabled(s, run[0]) && IsRun(cfg, Apply(cfg, s, run[0]), run[1..]))
  }

  function After(cfg: Config, s: Service, run: seq<Step>): Service
    requires IsRun(cfg, s, run)
    decreases |run|
  {
    if run == [] then s else After(cfg, Apply(cfg, s, run[0]), run[1..])
  }

  // ---------------------------------------------------------------- the invariant

  /** An approval by this user for this client and redirect URI with this consent key. */
  predicate Backed(approvals: seq<Approval>, user: Id, clientId: string, redirectUri: string, key: string) {
    exists j :: 0 <= j < |approvals| && Backs(approvals[j], user, clientId, redirectUri, key)
  }

  predicate Backs(a: Approval, user: Id, clientId: string, redirectUri: string, key: string) {
    a.user == user && a.clientId == clientId && a.redirectUri == redirectUri && NormalizeScopes(a.scopes) == key
  }

  predicate CodeFacts(s: Service, code: Code) {
    && code.keyId in s.owners && s.owners[code.keyId].entityType == User
    && Backed(s.approvals, s.owners[code.keyId].id, code.clientId, code.redirectUri, NormalizeScopes(code.scopes))
  }

  /** Tokens from code row r carry what that code carried, and its challenge was met. */
  predicate Redeems(cfg: Config, t: Tokens, code: Code, verifier: string) {
    && code.consumed && t.issuedAt <= code.expiresAt
    && t.clientId == code.clientId && t.keyId == code.keyId && t.scopes == code.scopes
    && (code.challenge.Some? ==> cfg.s256(verifier) == code.challenge.value)
  }

  /** The tokens stay within those they were obtained with. */
  predicate Within(t: Tokens, parent: Tokens) {
    t.subject == parent.subject && t.clientId == parent.clientId && Elements(t.scopes) <= Elements(parent.scopes)
  }

  /** The tokens stay within what was presented for them. */
  predicate WithinClaims(t: Tokens, claims: RefreshClaims) {
    Some(t.keyId) == claims.keyId && t.clientId == claims.clientId && Elements(t.scopes) <= Elements(claims.scopes)
  }

  predicate TokenFacts(cfg: Config, s: Service, i: nat)
    requires i < |s.tokens|
  {
    var t := s.tokens[i];
    && t.keyId in s.owners
    && s.owners[t.keyId] == Owner(if t.origin.FromClientCredentials? then ClientEntity else User, t.subject)
    && match t.origin
       case FromCode(row, verifier) => row < |s.codes| && Redeems(cfg, t, s.codes[row], verifier)
       case FromRefresh(claims) => WithinClaims(t, claims)
       case FromExchange(p) => p < i && Within(t, s.tokens[p])
       case _ => true
  }

  predicate FromSameCode(t: Tokens, u: Tokens) {
    t.origin.FromCode? && u.origin.FromCode? && t.origin.row == u.origin.row
  }

  ghost predicate Inv(cfg: Config, s: Service) {
    && (forall c :: c in s.clients ==> s.clients[c].clientId == c)
    && (forall c :: c in s.consents ==> Backed(s.approvals, c.user, c.clientId, c.redirectUri, c.scopeKey))
    && (forall i :: 0 <= i < |s.codes| ==> CodeFacts(s, s.codes[i]))
    && (forall i :: 0 <= i < |s.tokens| ==> TokenFacts(cfg, s, i))
    && (forall i, j :: 0 <= i < j < |s.tokens| ==> !FromSameCode(s.tokens[i], s.tokens[j]))
  }

  lemma BackedGrows(approvals: seq<Approval>, a: Approval)
    ensures forall u, c, r, k :: Backed(approvals, u, c, r, k) ==> Backed(approvals + [a], u, c, r, k)
    ensures Backed(approvals + [a], a.user, a.clientId, a.redirectUri, NormalizeScopes(a.scopes))
  {
    var more := approvals + [a];
    assert more[|approvals|] == a;
    forall u, c, r, k | Backed(approvals, u, c, r, k) ensures Backed(more, u, c, r, k) {
      var j :| 0 <= j < |approvals| && Backs(approvals[j], u, c, r, k);
      assert more[j] == approvals[j];
    }
  }

  lemma ApproveKeepsInv(cfg: Config, s: Service, principal: Owner, request: ApproveRequest)
    requires Inv(cfg, s) && Approve(s, principal, request).Ok?
    ensures Inv(cfg, Approve(s, principal, request).value)
  {
    var s' := Approve(s, principal, request).value;
    BackedGrows(s.approvals, s'.approvals[|s.approvals|]);
    forall i | 0 <= i < |s'.codes| ensures CodeFacts(s', s'.codes[i]) { assert CodeFacts(s, s.codes[i]); }
    forall i | 0 <= i < |s'.tokens| ensures TokenFacts(cfg, s', i) { assert TokenFacts(cfg, s, i); }
  }

  lemma AuthorizeKeepsInv(cfg: Config, s: Service, keyId: Id, request: AuthorizationRequest, now: int, code: string)
    requires Inv(cfg, s) && FindPrincipal(s, keyId).Some?
    requires Authorize(cfg, s, keyId, FindPrincipal(s, keyId).value, request, now, code).Ok?
    ensures Inv(cfg, Authorize(cfg, s, keyId, FindPrincipal(s, keyId).value, request, now, code).value)
  {
    var principal := FindPrincipal(s, keyId).value;
    var s' := Authorize(cfg, s, keyId, principal, request, now, code).value;
    var row := s'.codes[|s.codes|];
    assert Consent(principal.id, row.clientId, row.redirectUri, NormalizeScopes(row.scopes)) in s.consents;
    forall i | 0 <= i < |s'.codes| ensures CodeFacts(s', s'.codes[i]) {
      assert i < |s.codes| ==> CodeFacts(s, s.codes[i]);
    }
    forall i | 0 <= i < |s'.tokens| ensures TokenFacts(cfg, s', i) { assert TokenFacts(cfg, s, i); }
  }

  /** Adding tokens keeps the invariant when they meet it themselves. */
  lemma TokensAdded(cfg: Config, s: Service, t: Tokens)
    requires Inv(cfg, s)
    requires TokenFacts(cfg, s.(tokens := s.tokens + [t]), |s.tokens|)
    requires forall i :: 0 <= i < |s.tokens| ==> !FromSameCode(s.tokens[i], t)
    ensures Inv(cfg, s.(tokens := s.tokens + [t]))
  {
    var s' := s.(tokens := s.tokens + [t]);
    forall i | 0 <= i < |s'.codes| ensures CodeFacts(s', s'.codes[i]) { assert CodeFacts(s, s.codes[i]); }
    forall i | 0 <= i < |s'.tokens| ensures TokenFacts(cfg, s', i) {
      assert i < |s.tokens| ==> TokenFacts(cfg, s, i);
    }
  }

  lemma CodeConsumed(cfg: Config, s: Service, row: nat)
    requires Inv(cfg, s) && row < |s.codes| && !s.codes[row].consumed
    ensures var s' := s.(codes := s.codes[row := s.codes[row].(consumed := true)]);
            Inv(cfg, s') &&
            forall i :: 0 <= i < |s.tokens| ==> !(s.tokens[i].origin.FromCode? && s.tokens[i].origin.row == row)
  {
    var s' := s.(codes := s.codes[row := s.codes[row].(consumed := true)]);
    forall i | 0 <= i < |s'.codes| ensures CodeFacts(s', s'.codes[i]) { assert CodeFacts(s, s.codes[i]); }
    forall i | 0 <= i < |s'.tokens|
      ensures TokenFacts(cfg, s', i) && !(s.tokens[i].origin.FromCode? && s.tokens[i].origin.row == row)
    {
      assert TokenFacts(cfg, s, i);
    }
  }

  lemma RedeemKeepsInv(cfg: Config, s: Service, request: CodeRequest, auth: Option<ClientAuth>, now: int, signs: bool)
    requires Inv(cfg, s)
    ensures Inv(cfg, RedeemCode(cfg, s, request, auth, now, signs).0)
  {
    var checked := CheckCode(cfg, s, request, auth, now);
    if checked.Ok? {
      var row := checked.value;
      var code := s.codes[row];
      CodeConsumed(cfg, s, row);
      var consumed := s.(codes := s.codes[row := code.(consumed := true)]);
      assert CodeFacts(s, code);
      var issued := Issue(consumed, s.clients[code.clientId], code.keyId, FindPrincipal(s, code.keyId).value,
                          code.scopes,
                          code.resource, None, now, signs, FromCode(row, request.verifier));
      if issued.Ok? {
        TokensAdded(cfg, consumed, issued.value.tokens[|s.tokens|]);
      }
    }
  }

  lemma RefreshKeepsInv(cfg: Config, s: Service, presented: Option<RefreshClaims>, auth: Option<ClientAuth>,
                        scope: Option<string>, now: int, signs: bool)
    requires Inv(cfg, s) && Refresh(s, presented, auth, scope, now, signs).Ok?
    ensures Inv(cfg, Refresh(s, presented, auth, scope, now, signs).value)
  {
    var s' := Refresh(s, presented, auth, scope, now, signs).value;
    TokensAdded(cfg, s, s'.tokens[|s.tokens|]);
  }

  lemma ExchangeKeepsInv(cfg: Config, s: Service, i: nat, auth: Option<ClientAuth>, scope: Option<string>,
                         resource: Option<string>, valid: bool, now: int, signs: bool)
    requires Inv(cfg, s) && i < |s.tokens| && Exchange(cfg, s, i, auth, scope, resource, valid, now, signs).Ok?
    ensures Inv(cfg, Exchange(cfg, s, i, auth, scope, resource, valid, now, signs).value)
  {
    assert TokenFacts(cfg, s, i);
    var s' := Exchange(cfg, s, i, auth, scope, resource, valid, now, signs).value;
    TokensAdded(cfg, s, s'.tokens[|s.tokens|]);
  }

  lemma PasswordKeepsInv(cfg: Config, s: Service, clientId: string, auth: Option<ClientAuth>, user: Option<Id>,
                         verified: bool, keyId: Id, scope: Option<string>, resource: Option<string>, now: int,
                         signs: bool)
    requires Inv(cfg, s) && PasswordGrant(s, clientId, auth, user, verified, keyId, scope, resource, now, signs).Ok?
    ensures Inv(cfg, PasswordGrant(s, clientId, auth, user, verified, keyId, scope, resource, now, signs).value)
  {
    var s' := PasswordGrant(s, clientId, auth, user, verified, keyId, scope, resource, now, signs).value;
    TokensAdded(cfg, s, s'.tokens[|s.tokens|]);
  }

  lemma ClientCredentialsKeepsInv(cfg: Config, s: Service, clientId: string, auth: Option<ClientAuth>,
                                  audience: Option<string>,
                                  keyId: Id, scope: Option<string>, resource: Option<string>, now: int, signs: bool)
    requires Inv(cfg, s) && ClientCredentialsGrant(s, clientId, auth, audience, keyId, scope, resource, now, signs).Ok?
    ensures Inv(cfg, ClientCredentialsGrant(s, clientId, auth, audience, keyId, scope, resource, now, signs).value)
  {
    var s' := ClientCredentialsGrant(s, clientId, auth, audience, keyId, scope, resource, now, signs).value;
    TokensAdded(cfg, s, s'.tokens[|s.tokens|]);
  }

  /** Steps that leave codes, approvals and tokens alone and forget no key's owner. */
  lemma AdministrationKeepsInv(cfg: Config, s: Service, s': Service)
    requires Inv(cfg, s)
    requires s'.codes == s.codes && s'.approvals == s.approvals && s'.tokens == s.tokens
    requires s'.consents <= s.consents
    requires forall k :: k in s.owners ==> k in s'.owners && s'.owners[k] == s.owners[k]
    requires forall c :: c in s'.clients ==> s'.clients[c].clientId == c
    ensures Inv(cfg, s')
  {
    forall i | 0 <= i < |s'.codes| ensures CodeFacts(s', s'.codes[i]) { assert CodeFacts(s, s.codes[i]); }
    forall i | 0 <= i < |s'.tokens| ensures TokenFacts(cfg, s', i) { assert TokenFacts(cfg, s, i); }
  }

  lemma StepKeepsInv(cfg: Config, s: Service, step: Step)
    requires Inv(cfg, s) && Enabled(s, step)
    ensures Inv(cfg, Apply(cfg, s, step))
  {
    match step
    case DoApprove(keyId, request) =>
      if Approve(s, FindPrincipal(s, keyId).value, request).Ok? {
        ApproveKeepsInv(cfg, s, FindPrincipal(s, keyId).value, request);
      }
    case DoAuthorize(keyId, request, now, code) =>
      if Authorize(cfg, s, keyId, FindPrincipal(s, keyId).value, request, now, code).Ok? {
        AuthorizeKeepsInv(cfg, s, keyId, request, now, code);
      }
    case DoRedeem(request, auth, now, signs) => RedeemKeepsInv(cfg, s, request, auth, now, signs);
    case DoPassword(clientId, auth, user, verified, keyId, scope, resource, now, signs) =>
      if PasswordGrant(s, clientId, auth, user, verified, keyId, scope, resource, now, signs).Ok? {
        PasswordKeepsInv(cfg, s, clientId, auth, user, verified, keyId, scope, resource, now, signs);
      }
    case DoClientCredentials(clientId, auth, audience, keyId, scope, resource, now, signs) =>
      if ClientCredentialsGrant(s, clientId, auth, audience, keyId, scope, resource, now, signs).Ok? {
        ClientCredentialsKeepsInv(cfg, s, clientId, auth, audience, keyId, scope, resource, now, signs);
      }
    case DoRefresh(presented, auth, scope, now, signs) =>
      if Refresh(s, presented, auth, scope, now, signs).Ok? {
        RefreshKeepsInv(cfg, s, presented, auth, scope, now, signs);
      }
    case DoExchange(i, auth, scope, resource, valid, now, signs) =>
      if Exchange(cfg, s, i, auth, scope, resource, valid, now, signs).Ok? {
        ExchangeKeepsInv(cfg, s, i, auth, scope, resource, valid, now, signs);
      }
    case _ => AdministrationKeepsInv(cfg, s, Apply(cfg, s, step));
  }

  lemma {:induction false} RunKeepsInv(cfg: Config, s: Service, run: seq<Step>)
    requires Inv(cfg, s) && IsRun(cfg, s, run)
    ensures Inv(cfg, After(cfg, s, run))
    decreases |run|
  {
    if run != [] {
      StepKeepsInv(cfg, s, run[0]);
      RunKeepsInv(cfg, Apply(cfg, s, run[0]), run[1..]);
    }
  }

  // ---------------------------------------------------------------- what holds of every run

  /** In every run, tokens obtained with an authorization code trace back to an approval by
      the user they name, for their client and the code's redirect URI, under the same
      consent key; the code was unexpired and its challenge, if any, was met. */
  lemma CodeTokensWereApproved(cfg: Config, run: seq<Step>, i: nat) returns (approval: Approval)
    requires IsRun(cfg, Empty, run) && i < |After(cfg, Empty, run).tokens|
    requires After(cfg, Empty, run).tokens[i].origin.FromCode?
    ensures var s := After(cfg, Empty, run);
            var t := s.tokens[i];
            && approval in s.approvals
            && t.origin.row < |s.codes| && Redeems(cfg, t, s.codes[t.origin.row], t.origin.verifier)
            && approval.user == t.subject && approval.clientId == t.clientId
            && approval.redirectUri == s.codes[t.origin.row].redirectUri
            && NormalizeScopes(approval.scopes) == NormalizeScopes(t.scopes)
  {
    RunKeepsInv(cfg, Empty, run);
    var s := After(cfg, Empty, run);
    var t := s.tokens[i];
    assert TokenFacts(cfg, s, i);
    var code := s.codes[t.origin.row];
    assert CodeFacts(s, code);
    var j :| 0 <= j < |s.approvals| &&
      Backs(s.approvals[j], t.subject, code.clientId, code.redirectUri, NormalizeScopes(code.scopes));
    approval := s.approvals[j];
  }

  /** In every run each code yields tokens at most once. */
  lemma CodesYieldTokensOnce(cfg: Config, run: seq<Step>, i: nat, j: nat)
    requires IsRun(cfg, Empty, run) && i < |After(cfg, Empty, run).tokens| && j < |After(cfg, Empty, run).tokens|
    requires FromSameCode(After(cfg, Empty, run).tokens[i], After(cfg, Empty, run).tokens[j])
    ensures i == j
  {
    RunKeepsInv(cfg, Empty, run);
    var s := After(cfg, Empty, run);
    assert forall a, b :: 0 <= a < b < |s.tokens| ==> !FromSameCode(s.tokens[a], s.tokens[b]);
    assert FromSameCode(s.tokens[j], s.tokens[i]);
  }

  // ---------------------------------------------------------------- what each grant leaves alone

  /** Redeeming a code changes no scope list, consent, approval or client. */
  lemma RowKeepsScopes(s: Service, row: nat, verifier: string, now: int, signs: bool)
    requires Redeemable(s, row)
    ensures SameScopes(s, RedeemRow(s, row, verifier, now, signs).0)
  {
  }

  predicate SameScopes(s: Service, s': Service) {
    && s'.clients == s.clients && s'.consents == s.consents && s'.approvals == s.approvals && |s'.codes| == |s.codes|
    && forall i :: 0 <= i < |s.codes| ==> s'.codes[i].scopes == s.codes[i].scopes
  }

  lemma RedeemKeepsScopes(cfg: Config, s: Service, request: CodeRequest, auth: Option<ClientAuth>, now: int,
                          signs: bool)
    ensures SameScopes(s, RedeemCode(cfg, s, request, auth, now, signs).0)
  {
    var checked := CheckCode(cfg, s, request, auth, now);
    if checked.Ok? { RowKeepsScopes(s, checked.value, request.verifier, now, signs); }
  }

  predicate OnlyTokens(s: Service, r: Result<Service, Error>) {
    r.Ok? ==> r.value == s.(tokens := r.value.tokens)
  }

  lemma PasswordOnlyTokens(s: Service, clientId: string, auth: Option<ClientAuth>, user: Option<Id>, verified: bool,
                           keyId: Id, scope: Option<string>, resource: Option<string>, now: int, signs: bool)
    ensures OnlyTokens(s, PasswordGrant(s, clientId, auth, user, verified, keyId, scope, resource, now, signs))
  {
  }

  lemma ClientCredentialsOnlyTokens(s: Service, clientId: string, auth: Option<ClientAuth>, audience: Option<string>,
                                    keyId: Id,
                                    scope: Option<string>, resource: Option<string>, now: int, signs: bool)
    ensures OnlyTokens(s, ClientCredentialsGrant(s, clientId, auth, audience, keyId, scope, resource, now, signs))
  {
  }

  lemma RefreshOnlyTokens(s: Service, presented: Option<RefreshClaims>, auth: Option<ClientAuth>, scope: Option<string>,
                          now: int, signs: bool)
    ensures OnlyTokens(s, Refresh(s, presented, auth, scope, now, signs))
  {
  }

  lemma ExchangeOnlyTokens(cfg: Config, s: Service, i: nat, auth: Option<ClientAuth>, scope: Option<string>,
                           resource: Option<string>, valid: bool, now: int, signs: bool)
    requires i < |s.tokens|
    ensures OnlyTokens(s, Exchange(cfg, s, i, auth, scope, resource, valid, now, signs))
  {
  }

  /** The other grants change neither clients, consents, approvals nor codes. */
  lemma OtherGrants(cfg: Config, s: Service, step: Step)
    requires Enabled(s, step) && (step.DoPassword? || step.DoClientCredentials? || step.DoRefresh? || step.DoExchange?)
    ensures var s' := Apply(cfg, s, step);
            s'.clients == s.clients && s'.consents == s.consents && s'.approvals == s.approvals && s'.codes == s.codes
  {
    match step
    case DoPassword(clientId, auth, user, verified, keyId, scope, resource, now, signs) =>
      PasswordOnlyTokens(s, clientId, auth, user, verified, keyId, scope, resource, now, signs);
    case DoClientCredentials(clientId, auth, audience, keyId, scope, resource, now, signs) =>
      ClientCredentialsOnlyTokens(s, clientId, auth, audience, keyId, scope, resource, now, signs);
    case DoRefresh(presented, auth, scope, now, signs) => RefreshOnlyTokens(s, presented, auth, scope, now, signs);
    case DoExchange(i, auth, scope, resource, valid, now, signs) =>
      ExchangeOnlyTokens(cfg, s, i, auth, scope, resource, valid, now, signs);
  }

  // ---------------------------------------------------------------- building runs

  lemma Prepend(cfg: Config, s: Service, step: Step, s': Service, run: seq<Step>)
    requires Enabled(s, step) && Apply(cfg, s, step) == s' && IsRun(cfg, s', run)
    ensures IsRun(cfg, s, [step] + run) && After(cfg, s, [step] + run) == After(cfg, s', run)
  {
    assert ([step] + run)[1..] == run;
  }

  /** Registers a client, a user and the user's key. */
  lemma Prepared(cfg: Config, client: Client, owner: Owner, ready: Service, rest: seq<Step>) returns (run: seq<Step>)
    requires owner == Owner(User, 7) && client.clientId == "c" && IsRun(cfg, ready, rest)
    requires ready == Service(map["c" := client], {7}, map[1 := owner], {1}, {1}, {}, [], [], [])
    ensures IsRun(cfg, Empty, run) && After(cfg, Empty, run) == After(cfg, ready, rest)
    ensures |run| == 4 + |rest| && run[4..] == rest && run[0] == SetClient(client)
    ensures forall i :: 1 <= i < 4 ==> !run[i].SetClient?
  {
    var s1 := Empty.(clients := map["c" := client]);
    var s2 := s1.(users := {7});
    var s3 := s2.(owners := map[1 := owner]);
    Prepend(cfg, s3, SetKeys({1}, {1}), ready, rest);
    run := [SetKeys({1}, {1})] + rest;
    Prepend(cfg, s2, AddKey(1, owner), s3, run);
    run := [AddKey(1, owner)] + run;
    Prepend(cfg, s1, SetUsers({7}), s2, run);
    run := [SetUsers({7})] + run;
    Prepend(cfg, Empty, SetClient(client), s1, run);
    run := [SetClient(client)] + run;
  }

  // ---------------------------------------------------------------- no second approval

  lemma {:induction false} ConsentsLast(cfg: Config, s: Service, run: seq<Step>, consent: Consent)
    requires IsRun(cfg, s, run) && consent in s.consents
    requires forall i :: 0 <= i < |run| ==> run[i] != RevokeConsent(consent)
    ensures consent in After(cfg, s, run).consents
    decreases |run|
  {
    if run != [] {
      StepKeepsConsent(cfg, s, run[0], consent);
      assert forall i :: 0 <= i < |run[1..]| ==> run[1..][i] == run[i + 1];
      ConsentsLast(cfg, Apply(cfg, s, run[0]), run[1..], consent);
    }
  }

  lemma StepKeepsConsent(cfg: Config, s: Service, step: Step, consent: Consent)
    requires Enabled(s, step) && consent in s.consents && step != RevokeConsent(consent)
    ensures consent in Apply(cfg, s, step).consents
  {
    if step.DoPassword? || step.DoClientCredentials? || step.DoRefresh? || step.DoExchange? {
      OtherGrants(cfg, s, step);
    } else if step.DoRedeem? {
      RedeemKeepsScopes(cfg, s, step.redeem, step.auth, step.now, step.signs);
    }
  }

  /** The keys of two requests agree when their scope sets do, whatever order or repetition. */
  lemma SameScopesSameKey(a: seq<string>, b: seq<string>, allowed: seq<string>)
    requires AllTokens(a) && AllTokens(b) && Elements(a) == Elements(b)
    requires ScopesAllowed(a, allowed) && ScopesAllowed(b, allowed)
    ensures NormalizeScopes(IntersectScopes(a, allowed)) == NormalizeScopes(IntersectScopes(b, allowed))
  {
    NoElements(a);
    NoElements(b);
    if a != [] {
      forall i | 0 <= i < |a| ensures a[i] != "" && Free(a[i], ' ') { assert IsToken(a[i]); }
      forall i | 0 <= i < |b| ensures b[i] != "" && Free(b[i], ' ') { assert IsToken(b[i]); }
      ConsentKeyCanonical(a, b);
    }
  }

  /** The consent that a successful approval records. */
  function ConsentOf(s: Service, user: Id, approve: ApproveRequest): Consent
    requires approve.clientId in s.clients
  {
    var client := s.clients[approve.clientId];
    Consent(user, client.clientId, approve.redirectUri,
            NormalizeScopes(IntersectScopes(ParseScopes(approve.scope), client.allowedScopes)))
  }

  /** After an approval, as long as that consent is not revoked and the client's
      registration is what it was, no request for the same set of scopes, in any order and
      with any repetition, is told that approval is required, whatever else happens. */
  lemma ApprovedOnceIsEnough(cfg: Config, s: Service, user: Id, approve: ApproveRequest, more: seq<Step>,
                             keyId: Id, request: AuthorizationRequest, now: int, code: string)
    requires Approve(s, Owner(User, user), approve).Ok?
    requires IsRun(cfg, Approve(s, Owner(User, user), approve).value, more)
    requires forall i :: 0 <= i < |more| ==> more[i] != RevokeConsent(ConsentOf(s, user, approve))
    requires var later := After(cfg, Approve(s, Owner(User, user), approve).value, more);
             approve.clientId in later.clients && later.clients[approve.clientId] == s.clients[approve.clientId]
    requires request.clientId == approve.clientId
    requires ResolveRedirectUri(request, s.clients[approve.clientId]) == Ok(approve.redirectUri)
    requires Elements(Requested(request.scope)) == Elements(ParseScopes(approve.scope))
    ensures var later := After(cfg, Approve(s, Owner(User, user), approve).value, more);
            Authorize(cfg, later, keyId, Owner(User, user), request, now, code) != Err(ApprovalRequired)
  {
    var approved := Approve(s, Owner(User, user), approve).value;
    var later := After(cfg, approved, more);
    var client := s.clients[approve.clientId];
    ConsentsLast(cfg, approved, more, ConsentOf(s, user, approve));
    ParsedScopesAreTokens(approve.scope);
    if request.scope.Some? { ParsedScopesAreTokens(request.scope.value); }
    if ScopesAllowed(Requested(request.scope), client.allowedScopes) {
      SameScopesSameKey(ParseScopes(approve.scope), Requested(request.scope), client.allowedScopes);
    }
  }
}
