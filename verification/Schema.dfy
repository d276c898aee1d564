/**
 The provider's database: one row type per table, the state that holds all tables, and what the
 database itself enforces (foreign keys and unique indexes).
 */
module Schema {
  import opened Basics

  datatype Tenant = Tenant(
    code: string,
    sessionLifetime: int,
    authCodeLifetime: int,
    accessTokenLifetime: int,
    refreshTokenLifetime: int,
    idTokenLifetime: int)

  datatype Credential = Credential(kind: string, passwordHash: Option<string>)

  datatype User = User(
    tenantId: Id,
    loginId: string,
    status: string,
    credentials: seq<Credential>,
    name: Option<string>,
    email: string,
    emailVerified: bool,
    updatedAt: Time)

  datatype Client = Client(
    tenantId: Id,
    clientId: string,
    secretHash: string,
    grantTypes: seq<string>,
    requirePkce: bool,
    redirectUris: seq<string>,
    status: string)
  {
    predicate IsActive() { status == "active" }

    predicate HasGrantType(grantType: string) { grantType in grantTypes }
  }

  datatype Session = Session(userId: Id, tenantId: Id, expiresAt: Time, createdAt: Time)

  datatype AuthCode = AuthCode(
    sessionId: Id,
    clientId: Id,
    code: string,
    redirectUri: string,
    scope: string,
    nonce: Option<string>,
    challenge: Option<string>,
    challengeMethod: Option<string>,
    expiresAt: Time,
    usedAt: Option<Time>)
  {
    predicate IsUsed() { usedAt.Some? }

    /** Strictly before: a code is still good at the instant it expires. */
    predicate IsExpired(now: Time) { expiresAt < now }
  }

  datatype AccessToken = AccessToken(jti: string, sessionId: Id, clientId: Id, scope: string, expiresAt: Time)

  datatype RefreshToken = RefreshToken(
    tokenHash: string,
    parentId: Option<Id>,
    sessionId: Id,
    accessTokenId: Id,
    expiresAt: Time)

  datatype IdToken = IdToken(jti: string, sessionId: Id, clientId: Id, nonce: Option<string>, expiresAt: Time)

  /** A signing key; its table is keyed by the unique `kid`. */
  datatype SignKey = SignKey(id: Id, createdAt: Time, active: bool, rotatedAt: Option<Time>)

  /** The contents of a signed token: an access token or an ID token. */
  datatype Jwt =
    | AccessJwt(kid: string, jti: string, iss: string, sub: Id, aud: string, scope: string, sid: Id, exp: Time)
    | IdJwt(kid: string, jti: string, iss: string, sub: Id, aud: string, nonce: Option<string>,
            authTime: Time, atHash: string, exp: Time)

  /** Valid sessions are unrevoked and expire strictly after now: a session is no longer good at the instant it expires. */
  predicate SessionIsValid(session: Revocable<Session>, now: Time) {
    session.Live? && session.row.expiresAt > now
  }

  /**
   The library functions the provider calls: password check, SHA-256 in hex, the PKCE S256
   transformation and the at_hash of an access token; and its configured base URL.
   */
  datatype Env = Env(
    verifyPassword: (string, string) -> Result<bool, ()>,
    sha256Hex: string -> string,
    s256: string -> string,
    atHash: string -> string,
    issuerBaseUrl: string)

  /**
   All tables and the clock. `reuseDetectedAt` is the refresh-token column of that name. `signed`
   is not a table: it records every token string ever signed with one of the provider's keys, so a
   string verifies under a key exactly when it is recorded here with that key's kid.
   */
  datatype State = State(
    now: Time,
    tenants: map<Id, Tenant>,
    users: map<Id, User>,
    clients: map<Id, Client>,
    sessions: Table<Session>,
    codes: map<Id, AuthCode>,
    accessTokens: Table<AccessToken>,
    refreshTokens: Table<RefreshToken>,
    reuseDetectedAt: map<Id, Time>,
    idTokens: map<Id, IdToken>,
    keys: map<string, SignKey>,
    signed: map<string, Jwt>)

  // ---------- Foreign keys: each says which ids the rows of a table may mention ----------

  ghost predicate PeopleLinked(users: map<Id, User>, clients: map<Id, Client>, tenants: set<Id>) {
    && (forall u {:trigger users[u].tenantId} | u in users :: users[u].tenantId in tenants)
    && (forall c {:trigger clients[c].tenantId} | c in clients :: clients[c].tenantId in tenants)
  }

  ghost predicate SessionsLinked(sessions: Table<Session>, users: set<Id>, tenants: set<Id>) {
    && (forall x {:trigger sessions[x].row.userId} | x in sessions :: sessions[x].row.userId in users)
    && (forall x {:trigger sessions[x].row.tenantId} | x in sessions :: sessions[x].row.tenantId in tenants)
  }

  ghost predicate CodesLinked(codes: map<Id, AuthCode>, sessions: set<Id>, clients: set<Id>) {
    && (forall x {:trigger codes[x].sessionId} | x in codes :: codes[x].sessionId in sessions)
    && (forall x {:trigger codes[x].clientId} | x in codes :: codes[x].clientId in clients)
  }

  ghost predicate AccessTokensLinked(accessTokens: Table<AccessToken>, sessions: set<Id>, clients: set<Id>) {
    && (forall x {:trigger accessTokens[x].row.sessionId} | x in accessTokens ::
          accessTokens[x].row.sessionId in sessions)
    && (forall x {:trigger accessTokens[x].row.clientId} | x in accessTokens ::
          accessTokens[x].row.clientId in clients)
  }

  ghost predicate IdTokensLinked(idTokens: map<Id, IdToken>, sessions: set<Id>, clients: set<Id>) {
    && (forall x {:trigger idTokens[x].sessionId} | x in idTokens :: idTokens[x].sessionId in sessions)
    && (forall x {:trigger idTokens[x].clientId} | x in idTokens :: idTokens[x].clientId in clients)
  }

  ghost predicate RefreshTokensLinked(refreshTokens: Table<RefreshToken>, sessions: set<Id>, accessTokens: set<Id>) {
    && (forall x {:trigger refreshTokens[x].row.sessionId} | x in refreshTokens ::
          refreshTokens[x].row.sessionId in sessions)
    && (forall x {:trigger refreshTokens[x].row.accessTokenId} | x in refreshTokens ::
          refreshTokens[x].row.accessTokenId in accessTokens)
    && (forall x {:trigger refreshTokens[x].row.parentId} | x in refreshTokens ::
          refreshTokens[x].row.parentId.Some? ==> refreshTokens[x].row.parentId.value in refreshTokens)
  }

  ghost predicate ForeignKeys(s: State) {
    && PeopleLinked(s.users, s.clients, s.tenants.Keys)
    && SessionsLinked(s.sessions, s.users.Keys, s.tenants.Keys)
    && CodesLinked(s.codes, s.sessions.Keys, s.clients.Keys)
    && AccessTokensLinked(s.accessTokens, s.sessions.Keys, s.clients.Keys)
    && IdTokensLinked(s.idTokens, s.sessions.Keys, s.clients.Keys)
    && RefreshTokensLinked(s.refreshTokens, s.sessions.Keys, s.accessTokens.Keys)
  }

  // ---------- Unique indexes ----------

  ghost predicate ConfigUnique(tenants: map<Id, Tenant>, clients: map<Id, Client>, users: map<Id, User>) {
    && (forall x, y {:trigger tenants[x].code, tenants[y].code}
          | x in tenants && y in tenants && tenants[x].code == tenants[y].code :: x == y)
    && (forall x, y {:trigger clients[x].clientId, clients[y].clientId}
          | x in clients && y in clients && clients[x].clientId == clients[y].clientId :: x == y)
    && (forall x, y {:trigger users[x].loginId, users[y].loginId} | x in users && y in users && users[x].tenantId == users[y].tenantId
          && users[x].loginId == users[y].loginId :: x == y)
  }

  ghost predicate CodesUnique(codes: map<Id, AuthCode>) {
    forall x, y {:trigger codes[x].code, codes[y].code} | x in codes && y in codes && codes[x].code == codes[y].code :: x == y
  }

  ghost predicate AccessTokensUnique(accessTokens: Table<AccessToken>) {
    forall x, y {:trigger accessTokens[x].row.jti, accessTokens[y].row.jti}
      | x in accessTokens && y in accessTokens && accessTokens[x].row.jti == accessTokens[y].row.jti :: x == y
  }

  ghost predicate RefreshTokensUnique(refreshTokens: Table<RefreshToken>) {
    forall x, y {:trigger refreshTokens[x].row.tokenHash, refreshTokens[y].row.tokenHash} | x in refreshTokens && y in refreshTokens
      && refreshTokens[x].row.tokenHash == refreshTokens[y].row.tokenHash :: x == y
  }

  ghost predicate KeysUnique(keys: map<string, SignKey>) {
    forall x, y {:trigger keys[x].id, keys[y].id} | x in keys && y in keys && keys[x].id == keys[y].id :: x == y
  }

  ghost predicate UniqueIndexes(s: State) {
    && ConfigUnique(s.tenants, s.clients, s.users)
    && CodesUnique(s.codes)
    && AccessTokensUnique(s.accessTokens)
    && RefreshTokensUnique(s.refreshTokens)
    && KeysUnique(s.keys)
  }

  /** What the database guarantees of every state, whatever the program does. */
  ghost predicate Integrity(s: State) {
    ForeignKeys(s) && UniqueIndexes(s)
  }
}
