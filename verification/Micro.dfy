/**
 The token endpoint at its real granularity: every repository call is one atomic step, requests interleave
 with each other and with every other endpoint's calls in any order, the clock may move between any two
 calls, any call may fail, and a request that is never scheduled again has stopped where it was. No
 transaction protects anything.
 */
module Micro {
  import opened Basics
  import opened Schema
  import opened Repository
  import M = Machine
  import E = Endpoints

  datatype Request = AskRefresh(refresh: E.RefreshRequest) | AskExchange(exchange: E.CodeRequest)

  /** What a request has read and will mint from: the rows as they were when it read them. */
  datatype Grant =
    | OfToken(clientId: Id, client: Client, tokenId: Id, token: RefreshToken, session: Session, scope: string)
    | OfCode(clientId: Id, client: Client, codeId: Id, code: AuthCode, session: Session)
  {
    function SessionId(): Id { if OfToken? then token.sessionId else code.sessionId }

    function Scope(): string { if OfToken? then scope else code.scope }

    function ParentId(): Option<Id> { if OfToken? then Some(tokenId) else None }
  }

  /** Where a request is, with its local variables: the next repository call is the one named beside the case. */
  datatype Thread =
    | Asked(request: Request)                                             // find the client
    | ClientKnown(request: Request, clientId: Id, client: Client)         // find the token or the code
    | TokenRead(revoked: bool, sessionRevoked: bool, grant: Grant)        // decide
    | CodeRead(exchange: E.CodeRequest, grant: Grant)                     // decide
    | ReuseSeen(tokenId: Id, sessionId: Id)                               // mark the reuse
    | TakingDown(sessionId: Id)                                           // revoke the session's access tokens
    | AccessDown(sessionId: Id)                                           // revoke the session's refresh tokens
    | Approved(grant: Grant)                                              // revoke the old token or mark the code used
    | OldRevoked(grant: Grant)                                            // revoke the old access token
    | Spent(grant: Grant)                                                 // find the tenant
    | TenantKnown(grant: Grant, tenant: Tenant)                           // find the signing key, sign
    | AccessSigned(grant: Grant, tenant: Tenant, accessJti: string, accessText: string)  // store the access token
    | AccessStored(grant: Grant, tenant: Tenant, accessTokenId: Id, accessText: string)  // code: sign the ID token
    | IdSigned(grant: Grant, tenant: Tenant, accessTokenId: Id, accessText: string, idJti: string, idText: string)
    | IdStored(grant: Grant, tenant: Tenant, accessTokenId: Id, accessText: string, idText: string)
    | Answered(reply: E.Reply)

  /** The database and one request after a step of that request. */
  datatype Config = Config(db: State, thread: Thread)

  function Fail(db: State, error: E.Error): Config { Config(db, Answered(E.Failed(error))) }

  function CredentialsOf(request: Request): E.Credentials {
    if request.AskRefresh? then request.refresh.credentials else request.exchange.credentials
  }

  /** The refresh token or code that was presented. */
  function Presented(request: Request): string {
    if request.AskRefresh? then request.refresh.refreshToken else request.exchange.code
  }

  // ---------- Reading ----------

  ghost function FindClient(env: Env, db: State, request: Request, ok: bool): Config {
    var credentials := CredentialsOf(request);
    if credentials.clientId == "" || credentials.secret == "" then Fail(db, E.InvalidClient)
    else if Presented(request) == "" then Fail(db, E.InvalidRequest)
    else if !ok then Fail(db, E.ServerError)
    else match E.AuthenticateClient(env, db, credentials)
      case None => Fail(db, E.InvalidClient)
      case Some(id) => Config(db, ClientKnown(request, id, db.clients[id]))
  }

  ghost function FindPresented(env: Env, db: State, request: Request, clientId: Id, client: Client, ok: bool): Config
    requires ForeignKeys(db)
  {
    if request.AskRefresh? && !client.HasGrantType("refresh_token") then Fail(db, E.UnsupportedGrantType)
    else if !ok then Fail(db, E.ServerError)
    else if request.AskRefresh? then
      match FindByTokenHash(db.refreshTokens, env.sha256Hex(request.refresh.refreshToken))
      case None => Fail(db, E.InvalidGrant)
      case Some(id) =>
        var token := db.refreshTokens[id];
        var session := db.sessions[token.row.sessionId];
        Config(db, TokenRead(token.Revoked?, session.Revoked?,
                             OfToken(clientId, client, id, token.row, session.row, E.RefreshedScope(db, id, request.refresh.scope))))
    else
      match FindByCode(db.codes, request.exchange.code)
      case None => Fail(db, E.InvalidGrant)
      case Some(id) =>
        var code := db.codes[id];
        Config(db, CodeRead(request.exchange, OfCode(clientId, client, id, code, db.sessions[code.sessionId].row)))
  }

  // ---------- Deciding, on what was read and the current time ----------

  function DecideToken(db: State, revoked: bool, sessionRevoked: bool, grant: Grant): Config
    requires grant.OfToken?
  {
    if revoked then Config(db, ReuseSeen(grant.tokenId, grant.token.sessionId))
    else if grant.token.expiresAt < db.now || sessionRevoked || grant.session.expiresAt < db.now then Fail(db, E.InvalidGrant)
    else Config(db, Approved(grant))
  }

  function DecideCode(env: Env, db: State, r: E.CodeRequest, grant: Grant): Config
    requires grant.OfCode?
  {
    if grant.code.IsUsed() then Config(db, TakingDown(grant.code.sessionId))
    else if grant.code.IsExpired(db.now) || grant.code.clientId != grant.clientId || grant.code.redirectUri != r.redirectUri
      || !E.VerifierMatches(env, grant.code.challenge, r.verifier) then Fail(db, E.InvalidGrant)
    else Config(db, Approved(grant))
  }

  // ---------- Writing ----------

  function Spend(db: State, grant: Grant, ok: bool): Config {
    if !ok then Fail(db, E.ServerError)
    else match grant
      case OfToken(_, _, tokenId, _, _, _) => Config(RevokeRefreshTokens(db, {tokenId}), OldRevoked(grant))
      case OfCode(_, _, codeId, _, _) =>
        Config(if codeId in db.codes then MarkAsUsed(db, codeId) else db, Spent(grant))
  }

  ghost function SignAccess(env: Env, db: State, grant: Grant, tenant: Tenant, g: E.Generated, ok: bool): Config {
    match FindActive(db.keys)
    case None => Fail(db, E.ServerError)
    case Some(kid) =>
      if !ok then Fail(db, E.ServerError)
      else
        var jwt := AccessJwt(kid, g.accessJti, E.IssuerOf(env, tenant.code), grant.session.userId, grant.client.clientId,
                             grant.Scope(), grant.SessionId(), db.now + tenant.accessTokenLifetime * SECOND);
        Config(Sign(db, g.accessText, jwt), AccessSigned(grant, tenant, g.accessJti, g.accessText))
  }

  function NewAccessToken(db: State, grant: Grant, tenant: Tenant, jti: string): AccessToken {
    AccessToken(jti, grant.SessionId(), grant.clientId, grant.Scope(), db.now + tenant.accessTokenLifetime * SECOND)
  }

  ghost function StoreAccess(db: State, grant: Grant, tenant: Tenant, jti: string, text: string, g: E.Generated, ok: bool): Config {
    var row := NewAccessToken(db, grant, tenant, jti);
    if ok && CanCreateAccessToken(db, g.accessTokenId, row)
    then Config(CreateAccessToken(db, g.accessTokenId, row), AccessStored(grant, tenant, g.accessTokenId, text))
    else Fail(db, E.ServerError)
  }

  ghost function SignId(env: Env, db: State, grant: Grant, tenant: Tenant, accessTokenId: Id, text: string, g: E.Generated, ok: bool): Config
    requires grant.OfCode?
  {
    match FindActive(db.keys)
    case None => Fail(db, E.ServerError)
    case Some(kid) =>
      if !ok then Fail(db, E.ServerError)
      else
        var jwt := IdJwt(kid, g.idJti, E.IssuerOf(env, tenant.code), grant.session.userId, grant.client.clientId,
                         grant.code.nonce, grant.session.createdAt, env.atHash(text), db.now + tenant.idTokenLifetime * SECOND);
        Config(Sign(db, g.idText, jwt), IdSigned(grant, tenant, accessTokenId, text, g.idJti, g.idText))
  }

  ghost function StoreId(db: State, t: Thread, g: E.Generated, ok: bool): Config
    requires t.IdSigned? && t.grant.OfCode?
  {
    var row := IdToken(t.idJti, t.grant.SessionId(), t.grant.clientId, t.grant.code.nonce, db.now + t.tenant.idTokenLifetime * SECOND);
    if ok && CanCreateIdToken(db, g.idTokenId, row)
    then Config(CreateIdToken(db, g.idTokenId, row), IdStored(t.grant, t.tenant, t.accessTokenId, t.accessText, t.idText))
    else Fail(db, E.ServerError)
  }

  function NewRefreshToken(env: Env, db: State, grant: Grant, tenant: Tenant, accessTokenId: Id, g: E.Generated): RefreshToken {
    RefreshToken(env.sha256Hex(g.refreshText), grant.ParentId(), grant.SessionId(), accessTokenId,
                 db.now + tenant.refreshTokenLifetime * SECOND)
  }

  ghost function StoreRefresh(env: Env, db: State, grant: Grant, tenant: Tenant, accessTokenId: Id, accessText: string, idText: string,
                              g: E.Generated, ok: bool): Config {
    var row := NewRefreshToken(env, db, grant, tenant, accessTokenId, g);
    if ok && CanCreateRefreshToken(db, g.refreshTokenId, row)
    then Config(CreateRefreshToken(db, g.refreshTokenId, row),
                Answered(E.Tokens(accessText, tenant.accessTokenLifetime, g.refreshText, idText, grant.Scope())))
    else Fail(db, E.ServerError)
  }

  // ---------- One step of one request ----------

  /** The kind of grant a request holds is the kind it asked for. */
  predicate WellTyped(t: Thread) {
    && (t.TokenRead? || t.OldRevoked? ==> t.grant.OfToken?)
    && (t.CodeRead? || t.IdSigned? || t.IdStored? ==> t.grant.OfCode?)
  }

  /** The next call of the request. `ok` says whether the call goes through; where the source discards the error it carries on. */
  ghost function Advance(env: Env, db: State, t: Thread, g: E.Generated, ok: bool): (c: Config)
    requires ForeignKeys(db) && WellTyped(t)
    ensures WellTyped(c.thread)
  {
    match t
    case Asked(request) => FindClient(env, db, request, ok)
    case ClientKnown(request, clientId, client) => FindPresented(env, db, request, clientId, client, ok)
    case TokenRead(revoked, sessionRevoked, grant) => DecideToken(db, revoked, sessionRevoked, grant)
    case CodeRead(r, grant) => DecideCode(env, db, r, grant)
    case ReuseSeen(tokenId, sessionId) =>
      Config(if ok && tokenId in db.refreshTokens then MarkReuseDetected(db, tokenId) else db, TakingDown(sessionId))
    case TakingDown(sessionId) =>
      Config(if ok then RevokeAccessTokens(db, AccessTokensOf(db, {sessionId})) else db, AccessDown(sessionId))
    case AccessDown(sessionId) =>
      Config(if ok then RevokeRefreshTokens(db, RefreshTokensOf(db, {sessionId})) else db, Answered(E.Failed(E.InvalidGrant)))
    case Approved(grant) => Spend(db, grant, ok)
    case OldRevoked(grant) =>
      Config(if ok then RevokeAccessTokens(db, {grant.token.accessTokenId}) else db, Spent(grant))
    case Spent(grant) =>
      if ok && grant.session.tenantId in db.tenants then Config(db, TenantKnown(grant, db.tenants[grant.session.tenantId]))
      else Fail(db, E.ServerError)
    case TenantKnown(grant, tenant) => SignAccess(env, db, grant, tenant, g, ok)
    case AccessSigned(grant, tenant, jti, text) => StoreAccess(db, grant, tenant, jti, text, g, ok)
    case AccessStored(grant, tenant, accessTokenId, text) =>
      if grant.OfToken? then StoreRefresh(env, db, grant, tenant, accessTokenId, text, "", g, ok)
      else SignId(env, db, grant, tenant, accessTokenId, text, g, ok)
    case IdSigned(_, _, _, _, _, _) => StoreId(db, t, g, ok)
    case IdStored(grant, tenant, accessTokenId, text, idText) =>
      if grant.client.HasGrantType("refresh_token") then StoreRefresh(env, db, grant, tenant, accessTokenId, text, idText, g, ok)
      else Config(db, Answered(E.Tokens(text, tenant.accessTokenLifetime, "", idText, grant.Scope())))
    case Answered(_) => Config(db, t)
  }

  // ---------- The whole system ----------

  /** The repository writes. The first six are made by the token endpoint only, the others by the other endpoints too. */
  datatype Call =
    | MarkUsed(usedCode: Id)
    | MarkReuse(reusedToken: Id)
    | SignText(text: string, jwt: Jwt)
    | InsertAccess(newAccess: Id, access: AccessToken)
    | InsertId(newIdToken: Id, idToken: IdToken)
    | InsertRefresh(newRefresh: Id, refresh: RefreshToken)
    | InsertSession(newSession: Id, session: Session)
    | InsertCode(newCode: Id, code: AuthCode)
    | UpdateSessions(sessions: set<Id>)
    | UpdateAccess(accessTokens: set<Id>)
    | UpdateRefresh(refreshTokens: set<Id>)
    | InsertKey(kid: string, key: Id)
    | UpdateKeys(kids: set<string>)
    | SaveTenant(tenantId: Id, tenant: Tenant)
    | SaveClient(clientId: Id, client: Client)
    | SaveUser(userId: Id, user: User)
  {
    predicate TokenEndpointOnly() {
      MarkUsed? || MarkReuse? || SignText? || InsertAccess? || InsertId? || InsertRefresh?
    }
  }

  /** The database accepts the write. */
  ghost predicate CanCall(db: State, c: Call) {
    match c
    case MarkUsed(id) => id in db.codes
    case InsertAccess(id, row) => CanCreateAccessToken(db, id, row)
    case InsertId(id, row) => CanCreateIdToken(db, id, row)
    case InsertRefresh(id, row) => CanCreateRefreshToken(db, id, row)
    case InsertSession(id, row) => CanCreateSession(db, id, row)
    case InsertCode(id, row) => CanCreateCode(db, id, row)
    case InsertKey(kid, id) => CanCreateKey(db, kid, id)
    case SaveTenant(id, row) =>
      forall x {:trigger db.tenants[x].code} | x in db.tenants && x != id :: db.tenants[x].code != row.code
    case SaveClient(id, row) => M.CanSaveClient(db, id, row)
    case SaveUser(id, row) => M.CanSaveUser(db, id, row)
    case _ => true
  }

  function Called(db: State, c: Call): State
    requires c.MarkUsed? ==> c.usedCode in db.codes
  {
    match c
    case MarkUsed(id) => MarkAsUsed(db, id)
    case MarkReuse(id) => MarkReuseDetected(db, id)
    case SignText(text, jwt) => Sign(db, text, jwt)
    case InsertAccess(id, row) => CreateAccessToken(db, id, row)
    case InsertId(id, row) => CreateIdToken(db, id, row)
    case InsertRefresh(id, row) => CreateRefreshToken(db, id, row)
    case InsertSession(id, row) => CreateSession(db, id, row)
    case InsertCode(id, row) => CreateCode(db, id, row)
    case UpdateSessions(which) => RevokeSessions(db, which)
    case UpdateAccess(which) => RevokeAccessTokens(db, which)
    case UpdateRefresh(which) => RevokeRefreshTokens(db, which)
    case InsertKey(kid, id) => CreateKey(db, kid, id)
    case UpdateKeys(kids) => DeactivateKeys(db, kids)
    case SaveTenant(id, row) => db.(tenants := db.tenants[id := row])
    case SaveClient(id, row) => db.(clients := db.clients[id := row])
    case SaveUser(id, row) => db.(users := db.users[id := row])
  }

  /** `accessOrigins` and `idOrigins` are history: what each stored access token and ID token was minted from. */
  datatype System = System(db: State, threads: map<nat, Thread>, accessOrigins: map<Id, Grant>, idOrigins: map<Id, Grant>)

  datatype Step =
    | Wait(to: Time)
    | Arrive(tid: nat, request: Request)
    | Run(tid: nat, generated: E.Generated, ok: bool)
    | Other(call: Call)

  /** Strings are signed only once. */
  predicate SignsNew(db: State, t: Thread, g: E.Generated) {
    && (t.TenantKnown? ==> g.accessText !in db.signed)
    && (t.AccessStored? ==> g.idText !in db.signed)
  }

  ghost predicate Enabled(m: System, e: Step) {
    match e
    case Wait(to) => m.db.now <= to
    case Arrive(tid, _) => tid !in m.threads
    case Run(tid, g, _) => tid in m.threads && WellTyped(m.threads[tid]) && SignsNew(m.db, m.threads[tid], g)
    case Other(call) => CanCall(m.db, call) && !call.TokenEndpointOnly()
  }

  ghost function Ran(env: Env, m: System, tid: nat, g: E.Generated, ok: bool): System
    requires ForeignKeys(m.db) && tid in m.threads && WellTyped(m.threads[tid])
  {
    var t := m.threads[tid];
    var c := Advance(env, m.db, t, g, ok);
    System(c.db, m.threads[tid := c.thread],
           if t.AccessSigned? && c.thread.AccessStored? then m.accessOrigins[c.thread.accessTokenId := t.grant] else m.accessOrigins,
           if t.IdSigned? && c.thread.IdStored? then m.idOrigins[g.idTokenId := t.grant] else m.idOrigins)
  }

  ghost function After(env: Env, m: System, e: Step): System
    requires ForeignKeys(m.db) && Enabled(m, e)
  {
    match e
    case Wait(to) => m.(db := m.db.(now := to))
    case Arrive(tid, request) => m.(threads := m.threads[tid := Asked(request)])
    case Run(tid, g, ok) => Ran(env, m, tid, g, ok)
    case Other(call) => m.(db := Called(m.db, call))
  }

  ghost predicate Next(env: Env, m: System, e: Step, n: System) {
    ForeignKeys(m.db) && Enabled(m, e) && n == After(env, m, e)
  }

  ghost predicate IsInitial(m: System) {
    M.Initial(m.db) && m.threads == map[] && m.accessOrigins == map[] && m.idOrigins == map[]
  }

  ghost predicate IsPath(env: Env, trace: seq<System>, steps: seq<Step>) {
    && |trace| == |steps| + 1
    && forall i | 0 <= i < |steps| :: Next(env, trace[i], steps[i], trace[i + 1])
  }

  ghost predicate IsRun(env: Env, trace: seq<System>, steps: seq<Step>) {
    IsPath(env, trace, steps) && IsInitial(trace[0])
  }
}
