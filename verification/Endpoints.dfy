/**
 Each endpoint as one atomic step: from the state and the request to the new state and the reply, with one
 `now` for the whole request and every repository call succeeding. Generated values (ids, codes, token
 strings) are parameters. The methods of `Handlers` follow the source call by call and are proved equal to
 these functions.
 */
module Endpoints {
  import opened Basics
  import opened Schema
  import opened Repository
  import Text

  datatype Error =
    | InvalidClient | InvalidGrant | UnsupportedGrantType | InvalidRequest | ServerError
    | InvalidCredentials | NotFound | BadRequest | Conflict | InvalidToken
    | UnsupportedResponseType | InvalidScope | UnauthorizedClient | LoginRequired

  datatype Claim = Subject(user: Id) | Words(words: string) | Number(number: int) | Flag(flag: bool)

  /** Omitted strings of a token response are empty. */
  datatype Reply =
    | Failed(error: Error)
    | NoContent
    | LoggedIn(sessionId: Id)
    | RedirectToLogin
    | CodeIssued(code: string)
    | Tokens(accessToken: string, expiresIn: int, refreshToken: string, idToken: string, scope: string)
    | RevokedCounts(sessions: nat, accessTokens: nat, refreshTokens: nat)
    | Claims(claims: map<string, Claim>)
    | KeyCreated(kid: string)
    | TenantSaved

  datatype Outcome = Outcome(state: State, reply: Reply)

  function Deny(s: State, error: Error): Outcome { Outcome(s, Failed(error)) }

  /** A form or query parameter that is stored as NULL when absent. */
  function NonEmpty(x: string): Option<string> {
    if x == "" then None else Some(x)
  }

  predicate HasScope(scope: string, target: string) {
    target in Text.Split(scope, ' ')
  }

  // ---------- Login (auth/service.go) ----------

  function FindPasswordHash(credentials: seq<Credential>): string {
    if credentials == [] then ""
    else if credentials[0].kind == "password" && credentials[0].passwordHash.Some? then credentials[0].passwordHash.value
    else FindPasswordHash(credentials[1..])
  }

  function NewSession(s: State, userId: Id, tenantId: Id): Session
    requires tenantId in s.tenants
  {
    Session(userId, tenantId, s.now + s.tenants[tenantId].sessionLifetime * SECOND, s.now)
  }

  ghost function Login(env: Env, s: State, tenantCode: string, loginId: string, password: string, newId: Id): Outcome {
    if tenantCode == "" || loginId == "" || password == "" then Deny(s, InvalidRequest)
    else match FindTenantByCode(s, tenantCode)
      case None => Deny(s, InvalidCredentials)
      case Some(tenantId) =>
        match FindUserByTenantAndLogin(s, tenantId, loginId)
        case None => Deny(s, InvalidCredentials)
        case Some(userId) =>
          var hash := FindPasswordHash(s.users[userId].credentials);
          if s.users[userId].status != "active" || hash == "" then Deny(s, InvalidCredentials)
          else match env.verifyPassword(password, hash)
            case Err(_) => Deny(s, ServerError)
            case Ok(matches) =>
              if !matches then Deny(s, InvalidCredentials)
              else Outcome(CreateSession(s, newId, NewSession(s, userId, tenantId)), LoggedIn(newId))
  }

  // ---------- Authorize (oidc/authorize.go) ----------

  datatype AuthorizeRequest = AuthorizeRequest(
    tenantCode: string,
    responseType: string,
    clientId: string,
    redirectUri: string,
    scope: string,
    nonce: string,
    codeChallenge: string,
    codeChallengeMethod: string,
    prompt: string,
    sessionCookie: Option<Id>)

  /** What the checks in front of the session lookup decide. */
  datatype AuthorizeVerdict = Refused(error: Error) | Admitted(tenantId: Id, clientId: Id)

  ghost function JudgeAuthorize(s: State, r: AuthorizeRequest): (v: AuthorizeVerdict)
    ensures v.Admitted? ==> v.tenantId in s.tenants && v.clientId in s.clients
  {
    match FindTenantByCode(s, r.tenantCode)
    case None => Refused(NotFound)
    case Some(tenantId) =>
      if r.responseType != "code" then Refused(UnsupportedResponseType)
      else if r.clientId == "" then Refused(InvalidRequest)
      else match FindClientByClientId(s, r.clientId)
        case None => Refused(InvalidRequest)
        case Some(clientId) =>
          var client := s.clients[clientId];
          if !client.IsActive() then Refused(InvalidRequest)
          else if client.tenantId != tenantId then Refused(InvalidRequest)
          else if r.redirectUri == "" || r.redirectUri !in client.redirectUris then Refused(InvalidRequest)
          else if !HasScope(r.scope, "openid") then Refused(InvalidScope)
          else if !client.HasGrantType("authorization_code") then Refused(UnauthorizedClient)
          else if client.requirePkce && (r.codeChallenge == "" || r.codeChallengeMethod != "S256") then Refused(InvalidRequest)
          else Admitted(tenantId, clientId)
  }

  /** The session of the cookie, if it is valid and belongs to the tenant. */
  function CurrentSession(s: State, r: AuthorizeRequest, tenantId: Id): (o: Option<Id>)
    ensures o.Some? ==> o.value in s.sessions
  {
    if r.sessionCookie.Some? && r.sessionCookie.value in s.sessions
      && SessionIsValid(s.sessions[r.sessionCookie.value], s.now)
      && s.sessions[r.sessionCookie.value].row.tenantId == tenantId
    then r.sessionCookie else None
  }

  function NewCode(s: State, r: AuthorizeRequest, tenantId: Id, clientId: Id, sessionId: Id, code: string): AuthCode
    requires tenantId in s.tenants
  {
    AuthCode(sessionId, clientId, code, r.redirectUri, r.scope, NonEmpty(r.nonce), NonEmpty(r.codeChallenge),
             NonEmpty(r.codeChallengeMethod), s.now + s.tenants[tenantId].authCodeLifetime * SECOND, None)
  }

  ghost function Authorize(s: State, r: AuthorizeRequest, newId: Id, code: string): Outcome {
    match JudgeAuthorize(s, r)
    case Refused(error) => Deny(s, error)
    case Admitted(tenantId, clientId) =>
      var session := CurrentSession(s, r, tenantId);
      if r.prompt == "none" && session.None? then Deny(s, LoginRequired)
      else if r.prompt == "login" || session.None? then Outcome(s, RedirectToLogin)
      else Outcome(CreateCode(s, newId, NewCode(s, r, tenantId, clientId, session.value, code)), CodeIssued(code))
  }

  // ---------- Client authentication ----------

  datatype Credentials = Credentials(clientId: string, secret: string)

  /** The active client whose secret was presented. */
  ghost function AuthenticateClient(env: Env, s: State, c: Credentials): (r: Option<Id>)
    ensures r.Some? ==> r.value in s.clients && s.clients[r.value].clientId == c.clientId && s.clients[r.value].IsActive()
  {
    if c.clientId == "" || c.secret == "" then None
    else match FindClientByClientId(s, c.clientId)
      case None => None
      case Some(id) =>
        if s.clients[id].IsActive() && env.verifyPassword(c.secret, s.clients[id].secretHash) == Ok(true) then Some(id) else None
  }

  // ---------- Minting ----------

  /** The values a token request generates: row ids, jtis, the signed strings and the refresh token. */
  datatype Generated = Generated(
    accessTokenId: Id, accessJti: string, accessText: string,
    idTokenId: Id, idJti: string, idText: string,
    refreshTokenId: Id, refreshText: string)

  /** Generated values have never been used. A signed string holds the dots of its serialization, a refresh token is hex. */
  ghost predicate IsFresh(env: Env, s: State, g: Generated) {
    && g.accessTokenId !in s.accessTokens
    && (forall x {:trigger s.accessTokens[x].row.jti} | x in s.accessTokens :: s.accessTokens[x].row.jti != g.accessJti)
    && g.idTokenId !in s.idTokens
    && g.refreshTokenId !in s.refreshTokens
    && (forall x {:trigger s.refreshTokens[x].row.tokenHash} | x in s.refreshTokens ::
          s.refreshTokens[x].row.tokenHash != env.sha256Hex(g.refreshText))
    && g.accessText !in s.signed && g.idText !in s.signed && g.accessText != g.idText
    && '.' in g.accessText && '.' in g.idText && '.' !in g.refreshText
  }

  function IssuerOf(env: Env, tenantCode: string): string {
    env.issuerBaseUrl + "/" + tenantCode
  }

  /** Signs an access token for the session and stores its row. */
  function MintAccessToken(env: Env, s: State, kid: string, sessionId: Id, clientId: Id, scope: string, g: Generated): State
    requires sessionId in s.sessions && clientId in s.clients && s.sessions[sessionId].row.tenantId in s.tenants
  {
    var session := s.sessions[sessionId].row;
    var tenant := s.tenants[session.tenantId];
    var expiry := s.now + tenant.accessTokenLifetime * SECOND;
    var jwt := AccessJwt(kid, g.accessJti, IssuerOf(env, tenant.code), session.userId,
                         s.clients[clientId].clientId, scope, sessionId, expiry);
    CreateAccessToken(Sign(s, g.accessText, jwt), g.accessTokenId,
                      AccessToken(g.accessJti, sessionId, clientId, scope, expiry))
  }

  /** Stores a refresh token for the session, paired with an access token. */
  function MintRefreshToken(env: Env, s: State, parentId: Option<Id>, sessionId: Id, g: Generated): State
    requires sessionId in s.sessions && s.sessions[sessionId].row.tenantId in s.tenants
  {
    var tenant := s.tenants[s.sessions[sessionId].row.tenantId];
    CreateRefreshToken(s, g.refreshTokenId,
                       RefreshToken(env.sha256Hex(g.refreshText), parentId, sessionId, g.accessTokenId,
                                    s.now + tenant.refreshTokenLifetime * SECOND))
  }

  /** Signs an ID token for a redeemed code and stores its row. */
  function MintIdToken(env: Env, s: State, kid: string, code: AuthCode, clientId: Id, g: Generated): State
    requires code.sessionId in s.sessions && clientId in s.clients && s.sessions[code.sessionId].row.tenantId in s.tenants
  {
    var session := s.sessions[code.sessionId].row;
    var tenant := s.tenants[session.tenantId];
    var expiry := s.now + tenant.idTokenLifetime * SECOND;
    var jwt := IdJwt(kid, g.idJti, IssuerOf(env, tenant.code), session.userId, s.clients[clientId].clientId,
                     code.nonce, session.createdAt, env.atHash(g.accessText), expiry);
    CreateIdToken(Sign(s, g.idText, jwt), g.idTokenId,
                  IdToken(g.idJti, code.sessionId, clientId, code.nonce, expiry))
  }

  /** Revokes every access token and every refresh token of the session; the session row stays as it is. */
  function RevokeSessionTokens(s: State, sessionId: Id): State {
    var s1 := RevokeAccessTokens(s, AccessTokensOf(s, {sessionId}));
    RevokeRefreshTokens(s1, RefreshTokensOf(s1, {sessionId}))
  }

  // ---------- Authorization code grant (oidc/token_authcode.go) ----------

  datatype CodeRequest = CodeRequest(credentials: Credentials, code: string, redirectUri: string, verifier: string)

  datatype CodeVerdict = CodeRefused(error: Error) | CodeReplayed(codeId: Id) | CodeAccepted(codeId: Id, clientId: Id)

  predicate VerifierMatches(env: Env, challenge: Option<string>, verifier: string) {
    challenge.None? || challenge.value == "" || (verifier != "" && env.s256(verifier) == challenge.value)
  }

  ghost function JudgeCode(env: Env, s: State, r: CodeRequest): (v: CodeVerdict)
    ensures v.CodeReplayed? ==> v.codeId in s.codes
    ensures v.CodeAccepted? ==> v.codeId in s.codes && v.clientId in s.clients
  {
    if r.credentials.clientId == "" || r.credentials.secret == "" then CodeRefused(InvalidClient)
    else if r.code == "" then CodeRefused(InvalidRequest)
    else match AuthenticateClient(env, s, r.credentials)
      case None => CodeRefused(InvalidClient)
      case Some(clientId) =>
        match FindByCode(s.codes, r.code)
        case None => CodeRefused(InvalidGrant)
        case Some(codeId) =>
          var code := s.codes[codeId];
          if code.IsUsed() then CodeReplayed(codeId)
          else if code.IsExpired(s.now) || code.clientId != clientId || code.redirectUri != r.redirectUri
            || !VerifierMatches(env, code.challenge, r.verifier) then CodeRefused(InvalidGrant)
          else CodeAccepted(codeId, clientId)
  }

  /** Redeems a code: marks it used, then mints the access token, the ID token and, for clients that may refresh, a root refresh token. */
  ghost function RedeemCode(env: Env, s: State, codeId: Id, clientId: Id, g: Generated): Outcome
    requires ForeignKeys(s) && codeId in s.codes && clientId in s.clients
  {
    var code := s.codes[codeId];
    var s1 := MarkAsUsed(s, codeId);
    match FindActive(s1.keys)
    case None => Deny(s1, ServerError)
    case Some(kid) =>
      var s2 := MintAccessToken(env, s1, kid, code.sessionId, clientId, code.scope, g);
      var s3 := MintIdToken(env, s2, kid, code, clientId, g);
      var refreshable := s.clients[clientId].HasGrantType("refresh_token");
      var s4 := if refreshable then MintRefreshToken(env, s3, None, code.sessionId, g) else s3;
      Outcome(s4, Tokens(g.accessText, s.tenants[s.sessions[code.sessionId].row.tenantId].accessTokenLifetime,
                         if refreshable then g.refreshText else "", g.idText, code.scope))
  }

  ghost function GrantCode(env: Env, s: State, r: CodeRequest, g: Generated): Outcome
    requires ForeignKeys(s)
  {
    match JudgeCode(env, s, r)
    case CodeRefused(error) => Deny(s, error)
    case CodeReplayed(codeId) => Deny(RevokeSessionTokens(s, s.codes[codeId].sessionId), InvalidGrant)
    case CodeAccepted(codeId, clientId) => RedeemCode(env, s, codeId, clientId, g)
  }

  // ---------- Refresh token grant (oidc/token_refresh.go) ----------

  datatype RefreshRequest = RefreshRequest(credentials: Credentials, refreshToken: string, scope: string)

  datatype RefreshVerdict = RefreshRefused(error: Error) | Reused(tokenId: Id) | Rotates(tokenId: Id, clientId: Id)

  ghost function JudgeRefresh(env: Env, s: State, r: RefreshRequest): (v: RefreshVerdict)
    requires ForeignKeys(s)
    ensures v.Reused? ==> v.tokenId in s.refreshTokens
    ensures v.Rotates? ==> v.tokenId in s.refreshTokens && v.clientId in s.clients
  {
    if r.credentials.clientId == "" || r.credentials.secret == "" then RefreshRefused(InvalidClient)
    else if r.refreshToken == "" then RefreshRefused(InvalidRequest)
    else match AuthenticateClient(env, s, r.credentials)
      case None => RefreshRefused(InvalidClient)
      case Some(clientId) =>
        if !s.clients[clientId].HasGrantType("refresh_token") then RefreshRefused(UnsupportedGrantType)
        else match FindByTokenHash(s.refreshTokens, env.sha256Hex(r.refreshToken))
          case None => RefreshRefused(InvalidGrant)
          case Some(tokenId) =>
            var token := s.refreshTokens[tokenId];
            var session := s.sessions[token.row.sessionId];
            if token.Revoked? then Reused(tokenId)
            else if token.row.expiresAt < s.now || session.Revoked? || session.row.expiresAt < s.now then RefreshRefused(InvalidGrant)
            else Rotates(tokenId, clientId)
  }

  /** The scope of the new access token: the requested one if any, else that of the old access token. */
  function RefreshedScope(s: State, tokenId: Id, requested: string): string
    requires tokenId in s.refreshTokens && s.refreshTokens[tokenId].row.accessTokenId in s.accessTokens
  {
    if requested != "" then requested else s.accessTokens[s.refreshTokens[tokenId].row.accessTokenId].row.scope
  }

  /** Revokes the presented token and its access token, then mints their successors. */
  ghost function Rotate(env: Env, s: State, tokenId: Id, clientId: Id, scope: string, g: Generated): Outcome
    requires ForeignKeys(s) && tokenId in s.refreshTokens && clientId in s.clients
  {
    var token := s.refreshTokens[tokenId].row;
    var s1 := RevokeRefreshTokens(s, {tokenId});
    var s2 := RevokeAccessTokens(s1, {token.accessTokenId});
    match FindActive(s2.keys)
    case None => Deny(s2, ServerError)
    case Some(kid) =>
      var s3 := MintAccessToken(env, s2, kid, token.sessionId, clientId, scope, g);
      var s4 := MintRefreshToken(env, s3, Some(tokenId), token.sessionId, g);
      Outcome(s4, Tokens(g.accessText, s.tenants[s.sessions[token.sessionId].row.tenantId].accessTokenLifetime,
                         g.refreshText, "", scope))
  }

  ghost function GrantRefresh(env: Env, s: State, r: RefreshRequest, g: Generated): Outcome
    requires ForeignKeys(s)
  {
    match JudgeRefresh(env, s, r)
    case RefreshRefused(error) => Deny(s, error)
    case Reused(tokenId) =>
      Deny(RevokeSessionTokens(MarkReuseDetected(s, tokenId), s.refreshTokens[tokenId].row.sessionId), InvalidGrant)
    case Rotates(tokenId, clientId) =>
      Rotate(env, s, tokenId, clientId, RefreshedScope(s, tokenId, r.scope), g)
  }

  // ---------- Validation and userinfo (jwt/token_service.go, oidc/userinfo.go) ----------

  /** The string is an access token that verifies under a published key and has not expired. */
  predicate Validates(s: State, token: string) {
    && token in s.signed
    && s.signed[token].AccessJwt?
    && s.signed[token].kid in ActiveKids(s.keys)
    && s.now < s.signed[token].exp
  }

  ghost predicate Accepts(s: State, token: string) {
    && Validates(s, token)
    && var found := FindByJti(s.accessTokens, s.signed[token].jti);
       found.Some? && s.accessTokens[found.value].Live?
  }

  function ClaimsOf(userId: Id, user: User, scope: string): map<string, Claim> {
    map["sub" := Subject(userId)]
    + (if HasScope(scope, "profile") then
         (if user.name.Some? then map["name" := Words(user.name.value)] else map[])
         + map["updated_at" := Number(user.updatedAt / SECOND)]
       else map[])
    + (if HasScope(scope, "email") then
         map["email" := Words(user.email), "email_verified" := Flag(user.emailVerified)]
       else map[])
  }

  ghost function UserInfo(s: State, token: string): Reply {
    if !Accepts(s, token) then Failed(InvalidToken)
    else if s.signed[token].sub !in s.users then Failed(ServerError)
    else Claims(ClaimsOf(s.signed[token].sub, s.users[s.signed[token].sub], s.signed[token].scope))
  }

  // ---------- Revocation (oidc/revoke.go) ----------

  datatype RevokeRequest = RevokeRequest(credentials: Credentials, token: string, hint: string)

  datatype Attempt = Attempt(state: State, found: bool)

  ghost function RevokeAsAccessToken(s: State, token: string): Attempt {
    if !Validates(s, token) then Attempt(s, false)
    else match FindByJti(s.accessTokens, s.signed[token].jti)
      case None => Attempt(s, false)
      case Some(id) => Attempt(RevokeAccessTokens(s, {id}), true)
  }

  ghost function RevokeAsRefreshToken(env: Env, s: State, token: string): Attempt {
    match FindByTokenHash(s.refreshTokens, env.sha256Hex(token))
    case None => Attempt(s, false)
    case Some(id) =>
      Attempt(RevokeAccessTokens(RevokeRefreshTokens(s, {id}), {s.refreshTokens[id].row.accessTokenId}), true)
  }

  ghost function RevokeByHint(env: Env, s: State, token: string, hint: string): State {
    if hint == "refresh_token" then
      var first := RevokeAsRefreshToken(env, s, token);
      if first.found then first.state else RevokeAsAccessToken(first.state, token).state
    else
      var first := RevokeAsAccessToken(s, token);
      if first.found then first.state else RevokeAsRefreshToken(env, first.state, token).state
  }

  ghost function Revoke(env: Env, s: State, r: RevokeRequest): Outcome {
    if AuthenticateClient(env, s, r.credentials).None? then Deny(s, InvalidClient)
    else if r.token == "" then Outcome(s, NoContent)
    else Outcome(RevokeByHint(env, s, r.token, r.hint), NoContent)
  }

  // ---------- Incident response (management/incident.go) ----------

  /** Three bulk updates, for the sessions in `which`, their access tokens and their refresh tokens, with the row counts. */
  function RevokeEverything(s: State, which: set<Id>): Outcome {
    var s1 := RevokeSessions(s, which);
    var s2 := RevokeAccessTokens(s1, AccessTokensOf(s1, which));
    var s3 := RevokeRefreshTokens(s2, RefreshTokensOf(s2, which));
    Outcome(s3, RevokedCounts(|LiveIn(s.sessions, which)|,
                              |LiveIn(s.accessTokens, AccessTokensOf(s, which))|,
                              |LiveIn(s.refreshTokens, RefreshTokensOf(s, which))|))
  }

  function RevokeAll(s: State): Outcome { RevokeEverything(s, s.sessions.Keys) }

  function RevokeTenant(s: State, tenantId: Id): Outcome { RevokeEverything(s, SessionsOfTenant(s, tenantId)) }

  function RevokeUser(s: State, userId: Id): Outcome { RevokeEverything(s, SessionsOfUser(s, userId)) }

  // ---------- Keys (jwt/key_service.go, management/key.go) ----------

  function EnsureSigningKey(s: State, kid: string, id: Id): State {
    if ActiveKids(s.keys) != {} then s else CreateKey(s, kid, id)
  }

  function RotateKey(s: State, kid: string, id: Id): Outcome {
    Outcome(CreateKey(DeactivateKeys(s, ActiveKids(s.keys)), kid, id), KeyCreated(kid))
  }

  /** Refuses unknown keys, inactive keys and the last active key. */
  function DeactivateKey(s: State, kid: string): Outcome {
    if kid !in s.keys then Deny(s, NotFound)
    else if !s.keys[kid].active then Deny(s, BadRequest)
    else if |ActiveKids(s.keys)| <= 1 then Deny(s, BadRequest)
    else Outcome(DeactivateKeys(s, {kid}), NoContent)
  }

  // ---------- Tenants (management/tenant.go) ----------

  datatype Lifetimes = Lifetimes(
    session: Option<int>, authCode: Option<int>, accessToken: Option<int>, refreshToken: Option<int>, idToken: Option<int>)

  function LifetimeList(l: Lifetimes): seq<Option<int>> {
    [l.session, l.authCode, l.accessToken, l.refreshToken, l.idToken]
  }

  predicate LifetimesValid(vals: seq<Option<int>>) {
    forall i | 0 <= i < |vals| :: vals[i].Some? ==> vals[i].value > 0
  }

  function OrDefault(v: Option<int>, default: int): int {
    if v.Some? then v.value else default
  }

  /** The checks on the code's alphabet and on the name are inputs: `wellFormed` says they passed. */
  ghost function CreateTenant(s: State, id: Id, code: string, l: Lifetimes, wellFormed: bool): Outcome {
    if !wellFormed || !LifetimesValid(LifetimeList(l)) then Deny(s, BadRequest)
    else if FindTenantByCode(s, code).Some? then Deny(s, Conflict)
    else
      var tenant := Tenant(code, OrDefault(l.session, 3600), OrDefault(l.authCode, 60), OrDefault(l.accessToken, 3600),
                           OrDefault(l.refreshToken, 2592000), OrDefault(l.idToken, 3600));
      Outcome(s.(tenants := s.tenants[id := tenant]), TenantSaved)
  }

  function Updated(t: Tenant, l: Lifetimes): Tenant {
    Tenant(t.code, OrDefault(l.session, t.sessionLifetime), OrDefault(l.authCode, t.authCodeLifetime),
           OrDefault(l.accessToken, t.accessTokenLifetime), OrDefault(l.refreshToken, t.refreshTokenLifetime),
           OrDefault(l.idToken, t.idTokenLifetime))
  }

  function UpdateTenant(s: State, id: Id, l: Lifetimes, wellFormed: bool): Outcome {
    if id !in s.tenants then Deny(s, NotFound)
    else if !LifetimesValid(LifetimeList(l)) || !wellFormed then Deny(s, BadRequest)
    else Outcome(s.(tenants := s.tenants[id := Updated(s.tenants[id], l)]), TenantSaved)
  }
}
