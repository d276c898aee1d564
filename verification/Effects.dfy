/**
 What a step can do to the session, code and token tables, in six cases, and the invariant every
 reachable state of the serial machine satisfies.
 */
module Effects {
  import opened Basics
  import opened Schema
  import opened Repository
  import opened Machine
  import E = Endpoints

  // ---------- The invariant ----------

  /** A session belongs to its user's tenant, and a code's client and session share a tenant. */
  ghost predicate TenantsCohere(users: map<Id, User>, clients: map<Id, Client>, sessions: Table<Session>, codes: map<Id, AuthCode>) {
    && (forall x {:trigger sessions[x].row.tenantId} | x in sessions ::
          sessions[x].row.userId in users && users[sessions[x].row.userId].tenantId == sessions[x].row.tenantId)
    && (forall x {:trigger codes[x].clientId} {:trigger codes[x].sessionId} | x in codes ::
          && codes[x].clientId in clients && codes[x].sessionId in sessions
          && clients[codes[x].clientId].tenantId == sessions[codes[x].sessionId].row.tenantId)
  }

  ghost predicate LifetimesOk(tenants: map<Id, Tenant>) {
    forall x {:trigger tenants[x]} | x in tenants :: LifetimesPositive(tenants[x])
  }

  /** Parents are revoked and have one child; a refresh token is paired with one access token of its session, and revoked only together with it. */
  ghost predicate RotationSound(accessTokens: Table<AccessToken>, refreshTokens: Table<RefreshToken>) {
    && ParentsSound(refreshTokens)
    && PairsSound(accessTokens, refreshTokens)
  }

  ghost predicate ParentsSound(refreshTokens: Table<RefreshToken>) {
    && (forall x {:trigger refreshTokens[x].row.parentId} | x in refreshTokens && refreshTokens[x].row.parentId.Some? ::
          var p := refreshTokens[x].row.parentId.value;
          p in refreshTokens && refreshTokens[p].Revoked? && refreshTokens[p].row.sessionId == refreshTokens[x].row.sessionId)
    && (forall x, y {:trigger refreshTokens[x].row.parentId, refreshTokens[y].row.parentId}
          | x in refreshTokens && y in refreshTokens && refreshTokens[x].row.parentId.Some?
            && refreshTokens[x].row.parentId == refreshTokens[y].row.parentId :: x == y)
  }

  ghost predicate PairsSound(accessTokens: Table<AccessToken>, refreshTokens: Table<RefreshToken>) {
    && (forall x {:trigger refreshTokens[x].row.accessTokenId} | x in refreshTokens ::
          var a := refreshTokens[x].row.accessTokenId;
          && a in accessTokens
          && accessTokens[a].row.sessionId == refreshTokens[x].row.sessionId
          && (refreshTokens[x].Revoked? ==> accessTokens[a].Revoked?))
    && (forall x, y {:trigger refreshTokens[x].row.accessTokenId, refreshTokens[y].row.accessTokenId}
          | x in refreshTokens && y in refreshTokens
            && refreshTokens[x].row.accessTokenId == refreshTokens[y].row.accessTokenId :: x == y)
  }

  ghost predicate Invariant(s: State) {
    && Integrity(s)
    && TenantsCohere(s.users, s.clients, s.sessions, s.codes)
    && LifetimesOk(s.tenants)
    && KeysConsistent(s.keys) && ActiveKids(s.keys) != {}
    && RotationSound(s.accessTokens, s.refreshTokens)
  }

  // ---------- The six effects ----------

  datatype Effect =
    | Elsewhere                                                            // no session, code or token changes
    | Opened(id: Id, session: Session)                                     // login
    | Issued(id: Id, code: AuthCode)                                       // authorize
    | Redeemed(id: Id, clientId: Id, generated: E.Generated)               // code exchange
    | Rotated(id: Id, clientId: Id, scope: string, generated: E.Generated) // refresh
    | Withdrawn(sessions: set<Id>, accessTokens: set<Id>, refreshTokens: set<Id>) // every kind of revocation

  /** Tenants, users, clients, keys and the clock stay. */
  predicate SameSetting(s: State, t: State) {
    && t.now == s.now && t.tenants == s.tenants && t.users == s.users && t.clients == s.clients && t.keys == s.keys
  }

  /** A refresh token is withdrawn only with its access token. */
  ghost predicate Paired(s: State, accessTokens: set<Id>, refreshTokens: set<Id>) {
    forall x {:trigger s.refreshTokens[x].row.accessTokenId} | x in s.refreshTokens && x in refreshTokens ::
      s.refreshTokens[x].row.accessTokenId in accessTokens
  }

  ghost predicate Did(env: Env, s: State, f: Effect, t: State)
    requires ForeignKeys(s)
  {
    match f
    case Elsewhere =>
      && t.sessions == s.sessions && t.codes == s.codes && t.accessTokens == s.accessTokens
      && t.refreshTokens == s.refreshTokens && t.idTokens == s.idTokens && t.signed == s.signed
    case Opened(id, row) =>
      && CanCreateSession(s, id, row) && t == CreateSession(s, id, row)
      && s.users[row.userId].tenantId == row.tenantId
    case Issued(id, row) =>
      && CanCreateCode(s, id, row) && t == CreateCode(s, id, row) && row.usedAt.None?
      && SessionIsValid(s.sessions[row.sessionId], s.now)
      && var tenantId := s.sessions[row.sessionId].row.tenantId;
         && tenantId in s.tenants && s.clients[row.clientId].tenantId == tenantId
         && row.expiresAt == s.now + s.tenants[tenantId].authCodeLifetime * SECOND
         && row.redirectUri in s.clients[row.clientId].redirectUris
    case Redeemed(id, clientId, g) =>
      && id in s.codes && clientId in s.clients && E.IsFresh(env, s, g) && ActiveKids(s.keys) != {}
      && !s.codes[id].IsUsed() && !s.codes[id].IsExpired(s.now) && s.codes[id].clientId == clientId
      && t == E.RedeemCode(env, s, id, clientId, g).state
    case Rotated(id, clientId, scope, g) =>
      && id in s.refreshTokens && clientId in s.clients && E.IsFresh(env, s, g) && ActiveKids(s.keys) != {}
      && s.refreshTokens[id].Live? && s.now <= s.refreshTokens[id].row.expiresAt
      && s.sessions[s.refreshTokens[id].row.sessionId].Live?
      && s.now <= s.sessions[s.refreshTokens[id].row.sessionId].row.expiresAt
      && t == E.Rotate(env, s, id, clientId, scope, g).state
    case Withdrawn(sess, ats, rts) =>
      && SameSetting(s, t) && t.codes == s.codes && t.idTokens == s.idTokens && t.signed == s.signed
      && t.sessions == RevokeIn(s.sessions, sess, s.now)
      && t.accessTokens == RevokeIn(s.accessTokens, ats, s.now)
      && t.refreshTokens == RevokeIn(s.refreshTokens, rts, s.now)
      && Paired(s, ats, rts)
  }

  /** The events that can change tenants, users, clients, keys or the clock. */
  predicate IsSetting(e: Event) {
    || e.Tick? || e.UserInfo? || e.RotateKey? || e.DeactivateKey? || e.CreateTenant? || e.UpdateTenant?
    || e.SaveClient? || e.SaveUser?
  }

  lemma EffectKeepsSetting(env: Env, s: State, f: Effect, t: State)
    requires ForeignKeys(s) && Did(env, s, f, t) && !f.Elsewhere?
    ensures SameSetting(s, t)
  {
    hide ForeignKeys, E.RedeemCode, E.Rotate, E.IsFresh;
    match f
    case Redeemed(id, clientId, g) => RedeemedTables(env, s, id, clientId, g);
    case Rotated(id, clientId, scope, g) => RotatedTables(env, s, id, clientId, scope, g);
    case _ =>
  }

  // ---------- The tables after minting ----------

  lemma FreshIds(env: Env, s: State, g: E.Generated)
    requires E.IsFresh(env, s, g)
    ensures g.accessTokenId !in s.accessTokens && g.idTokenId !in s.idTokens && g.refreshTokenId !in s.refreshTokens
  {
  }

  lemma AccessMinted(env: Env, s: State, kid: string, sessionId: Id, clientId: Id, scope: string, g: E.Generated)
    requires sessionId in s.sessions && clientId in s.clients && s.sessions[sessionId].row.tenantId in s.tenants
    ensures
      var t := E.MintAccessToken(env, s, kid, sessionId, clientId, scope, g);
      var tenant := s.tenants[s.sessions[sessionId].row.tenantId];
      t == s.(signed := t.signed,
              accessTokens := s.accessTokens[g.accessTokenId :=
                Live(AccessToken(g.accessJti, sessionId, clientId, scope, s.now + tenant.accessTokenLifetime * SECOND))])
  {
  }

  lemma IdMinted(env: Env, s: State, kid: string, code: AuthCode, clientId: Id, g: E.Generated)
    requires code.sessionId in s.sessions && clientId in s.clients && s.sessions[code.sessionId].row.tenantId in s.tenants
    ensures
      var t := E.MintIdToken(env, s, kid, code, clientId, g);
      var tenant := s.tenants[s.sessions[code.sessionId].row.tenantId];
      t == s.(signed := t.signed,
              idTokens := s.idTokens[g.idTokenId :=
                IdToken(g.idJti, code.sessionId, clientId, code.nonce, s.now + tenant.idTokenLifetime * SECOND)])
  {
  }

  lemma RefreshMinted(env: Env, s: State, parentId: Option<Id>, sessionId: Id, g: E.Generated)
    requires sessionId in s.sessions && s.sessions[sessionId].row.tenantId in s.tenants
    ensures
      var tenant := s.tenants[s.sessions[sessionId].row.tenantId];
      E.MintRefreshToken(env, s, parentId, sessionId, g) == s.(refreshTokens := s.refreshTokens[g.refreshTokenId :=
        Live(RefreshToken(env.sha256Hex(g.refreshText), parentId, sessionId, g.accessTokenId,
                          s.now + tenant.refreshTokenLifetime * SECOND))])
  {
  }

  lemma RedeemedTables(env: Env, s: State, id: Id, clientId: Id, g: E.Generated)
    requires ForeignKeys(s) && id in s.codes && clientId in s.clients && ActiveKids(s.keys) != {}
    ensures
      var t := E.RedeemCode(env, s, id, clientId, g).state;
      var code := s.codes[id];
      var tenant := s.tenants[s.sessions[code.sessionId].row.tenantId];
      && SameSetting(s, t) && t.sessions == s.sessions && t.reuseDetectedAt == s.reuseDetectedAt
      && t.codes == s.codes[id := code.(usedAt := Some(s.now))]
      && t.accessTokens == s.accessTokens[g.accessTokenId :=
           Live(AccessToken(g.accessJti, code.sessionId, clientId, code.scope, s.now + tenant.accessTokenLifetime * SECOND))]
      && t.idTokens == s.idTokens[g.idTokenId :=
           IdToken(g.idJti, code.sessionId, clientId, code.nonce, s.now + tenant.idTokenLifetime * SECOND)]
      && t.refreshTokens ==
           (if s.clients[clientId].HasGrantType("refresh_token") then
              s.refreshTokens[g.refreshTokenId :=
                Live(RefreshToken(env.sha256Hex(g.refreshText), None, code.sessionId, g.accessTokenId,
                                  s.now + tenant.refreshTokenLifetime * SECOND))]
            else s.refreshTokens)
  {
    hide ActiveKids, E.MintAccessToken, E.MintIdToken, E.MintRefreshToken;
    if FindActive(s.keys).Some? {
      var kid, code := FindActive(s.keys).value, s.codes[id];
      var s1 := MarkAsUsed(s, id);
      AccessMinted(env, s1, kid, code.sessionId, clientId, code.scope, g);
      var s2 := E.MintAccessToken(env, s1, kid, code.sessionId, clientId, code.scope, g);
      IdMinted(env, s2, kid, code, clientId, g);
      RefreshMinted(env, E.MintIdToken(env, s2, kid, code, clientId, g), None, code.sessionId, g);
    }
  }

  lemma RotatedTables(env: Env, s: State, id: Id, clientId: Id, scope: string, g: E.Generated)
    requires ForeignKeys(s) && id in s.refreshTokens && clientId in s.clients && ActiveKids(s.keys) != {}
    ensures
      var t := E.Rotate(env, s, id, clientId, scope, g).state;
      var token := s.refreshTokens[id].row;
      var tenant := s.tenants[s.sessions[token.sessionId].row.tenantId];
      && SameSetting(s, t) && t.sessions == s.sessions && t.reuseDetectedAt == s.reuseDetectedAt
      && t.codes == s.codes && t.idTokens == s.idTokens
      && t.accessTokens == RevokeIn(s.accessTokens, {token.accessTokenId}, s.now)[g.accessTokenId :=
           Live(AccessToken(g.accessJti, token.sessionId, clientId, scope, s.now + tenant.accessTokenLifetime * SECOND))]
      && t.refreshTokens == RevokeIn(s.refreshTokens, {id}, s.now)[g.refreshTokenId :=
           Live(RefreshToken(env.sha256Hex(g.refreshText), Some(id), token.sessionId, g.accessTokenId,
                             s.now + tenant.refreshTokenLifetime * SECOND))]
  {
  }

  /** The two tokens an exchange signs. */
  lemma RedeemedSigned(env: Env, s: State, id: Id, clientId: Id, g: E.Generated)
    requires ForeignKeys(s) && id in s.codes && clientId in s.clients && ActiveKids(s.keys) != {}
    ensures
      var t := E.RedeemCode(env, s, id, clientId, g).state;
      var code := s.codes[id];
      var session := s.sessions[code.sessionId].row;
      var tenant := s.tenants[session.tenantId];
      var kid := FindActive(s.keys).value;
      t.signed == s.signed[
        g.accessText := AccessJwt(kid, g.accessJti, E.IssuerOf(env, tenant.code), session.userId, s.clients[clientId].clientId,
                                  code.scope, code.sessionId, s.now + tenant.accessTokenLifetime * SECOND)][
        g.idText := IdJwt(kid, g.idJti, E.IssuerOf(env, tenant.code), session.userId, s.clients[clientId].clientId, code.nonce,
                          session.createdAt, env.atHash(g.accessText), s.now + tenant.idTokenLifetime * SECOND)]
  {
    hide NewestAmong, ActiveKids, E.IssuerOf, E.MintAccessToken, E.MintIdToken, E.MintRefreshToken;
    var kid := FindActive(s.keys).value;
    var code := s.codes[id];
    var s1 := MarkAsUsed(s, id);
    AccessSigned(env, s1, kid, code.sessionId, clientId, code.scope, g);
    var s2 := E.MintAccessToken(env, s1, kid, code.sessionId, clientId, code.scope, g);
    IdSigned(env, s2, kid, code, clientId, g);
    var s3 := E.MintIdToken(env, s2, kid, code, clientId, g);
    RefreshSignsNothing(env, s3, None, code.sessionId, g);
  }

  /** The token a refresh signs. */
  lemma RotatedSigned(env: Env, s: State, id: Id, clientId: Id, scope: string, g: E.Generated)
    requires ForeignKeys(s) && id in s.refreshTokens && clientId in s.clients && ActiveKids(s.keys) != {}
    ensures
      var t := E.Rotate(env, s, id, clientId, scope, g).state;
      var sid := s.refreshTokens[id].row.sessionId;
      var session := s.sessions[sid].row;
      var tenant := s.tenants[session.tenantId];
      t.signed == s.signed[
        g.accessText := AccessJwt(FindActive(s.keys).value, g.accessJti, E.IssuerOf(env, tenant.code), session.userId,
                                  s.clients[clientId].clientId, scope, sid, s.now + tenant.accessTokenLifetime * SECOND)]
  {
    hide NewestAmong, ActiveKids, E.IssuerOf, E.MintAccessToken, E.MintRefreshToken;
    var kid, token := FindActive(s.keys).value, s.refreshTokens[id].row;
    var s2 := RevokeAccessTokens(RevokeRefreshTokens(s, {id}), {token.accessTokenId});
    AccessSigned(env, s2, kid, token.sessionId, clientId, scope, g);
    RefreshSignsNothing(env, E.MintAccessToken(env, s2, kid, token.sessionId, clientId, scope, g), Some(id), token.sessionId, g);
  }

  lemma AccessSigned(env: Env, s: State, kid: string, sessionId: Id, clientId: Id, scope: string, g: E.Generated)
    requires sessionId in s.sessions && clientId in s.clients && s.sessions[sessionId].row.tenantId in s.tenants
    ensures
      var t := E.MintAccessToken(env, s, kid, sessionId, clientId, scope, g);
      var session := s.sessions[sessionId].row;
      var tenant := s.tenants[session.tenantId];
      && SameSetting(s, t) && t.sessions == s.sessions && t.codes == s.codes
      && t.signed == s.signed[
           g.accessText := AccessJwt(kid, g.accessJti, E.IssuerOf(env, tenant.code), session.userId, s.clients[clientId].clientId,
                                     scope, sessionId, s.now + tenant.accessTokenLifetime * SECOND)]
  {
  }

  lemma IdSigned(env: Env, s: State, kid: string, code: AuthCode, clientId: Id, g: E.Generated)
    requires code.sessionId in s.sessions && clientId in s.clients && s.sessions[code.sessionId].row.tenantId in s.tenants
    ensures
      var t := E.MintIdToken(env, s, kid, code, clientId, g);
      var session := s.sessions[code.sessionId].row;
      var tenant := s.tenants[session.tenantId];
      && SameSetting(s, t) && t.sessions == s.sessions
      && t.signed == s.signed[
           g.idText := IdJwt(kid, g.idJti, E.IssuerOf(env, tenant.code), session.userId, s.clients[clientId].clientId, code.nonce,
                             session.createdAt, env.atHash(g.accessText), s.now + tenant.idTokenLifetime * SECOND)]
  {
  }

  lemma RefreshSignsNothing(env: Env, s: State, parentId: Option<Id>, sessionId: Id, g: E.Generated)
    requires sessionId in s.sessions && s.sessions[sessionId].row.tenantId in s.tenants
    ensures E.MintRefreshToken(env, s, parentId, sessionId, g).signed == s.signed
  {
  }

  lemma FreshTexts(env: Env, s: State, g: E.Generated)
    requires E.IsFresh(env, s, g)
    ensures g.accessText !in s.signed && g.idText !in s.signed && g.accessText != g.idText
    ensures '.' in g.accessText && '.' in g.idText && '.' !in g.refreshText
  {
  }

  // ---------- Every step has one of the effects ----------

  lemma SessionTokensWithdrawn(env: Env, s: State, sessionId: Id) returns (f: Effect)
    requires ForeignKeys(s) && PairsSound(s.accessTokens, s.refreshTokens)
    ensures f == Withdrawn({}, AccessTokensOf(s, {sessionId}), RefreshTokensOf(s, {sessionId}))
    ensures Did(env, s, f, E.RevokeSessionTokens(s, sessionId))
  {
    hide ForeignKeys;
    f := Withdrawn({}, AccessTokensOf(s, {sessionId}), RefreshTokensOf(s, {sessionId}));
  }

  lemma ReuseWithdraws(env: Env, s: State, tokenId: Id, sessionId: Id) returns (f: Effect)
    requires ForeignKeys(s) && PairsSound(s.accessTokens, s.refreshTokens)
    ensures f == Withdrawn({}, AccessTokensOf(s, {sessionId}), RefreshTokensOf(s, {sessionId}))
    ensures Did(env, s, f, E.RevokeSessionTokens(MarkReuseDetected(s, tokenId), sessionId))
  {
    hide ForeignKeys;
    f := Withdrawn({}, AccessTokensOf(s, {sessionId}), RefreshTokensOf(s, {sessionId}));
  }

  lemma EverythingWithdrawn(env: Env, s: State, which: set<Id>) returns (f: Effect)
    requires ForeignKeys(s) && PairsSound(s.accessTokens, s.refreshTokens)
    ensures f == Withdrawn(which, AccessTokensOf(s, which), RefreshTokensOf(s, which))
    ensures Did(env, s, f, E.RevokeEverything(s, which).state)
  {
    hide ForeignKeys;
    f := Withdrawn(which, AccessTokensOf(s, which), RefreshTokensOf(s, which));
    var s1 := RevokeSessions(s, which);
    var s2 := RevokeAccessTokens(s1, AccessTokensOf(s1, which));
    assert AccessTokensOf(s1, which) == AccessTokensOf(s, which);
    assert RefreshTokensOf(s2, which) == RefreshTokensOf(s, which);
  }

  lemma CodeGrantEffect(env: Env, s: State, r: E.CodeRequest, g: E.Generated) returns (f: Effect)
    requires ForeignKeys(s) && PairsSound(s.accessTokens, s.refreshTokens)
    requires ActiveKids(s.keys) != {} && E.IsFresh(env, s, g)
    ensures Did(env, s, f, E.GrantCode(env, s, r, g).state)
    ensures f.Redeemed? ==> E.JudgeCode(env, s, r) == E.CodeAccepted(f.id, f.clientId) && f.generated == g
    ensures f.Redeemed? <==> E.JudgeCode(env, s, r).CodeAccepted?
    ensures f.Redeemed? || f.Elsewhere? || f.Withdrawn?
    ensures f.Elsewhere? ==> E.GrantCode(env, s, r, g).state == s
  {
    hide ForeignKeys, PairsSound, E.IsFresh, E.RedeemCode, E.RevokeSessionTokens, E.AuthenticateClient;
    match E.JudgeCode(env, s, r)
    case CodeRefused(_) => f := Elsewhere;
    case CodeReplayed(codeId) => f := SessionTokensWithdrawn(env, s, s.codes[codeId].sessionId);
    case CodeAccepted(codeId, clientId) => f := Redeemed(codeId, clientId, g);
  }

  lemma RefreshGrantEffect(env: Env, s: State, r: E.RefreshRequest, g: E.Generated) returns (f: Effect)
    requires ForeignKeys(s) && PairsSound(s.accessTokens, s.refreshTokens)
    requires ActiveKids(s.keys) != {} && E.IsFresh(env, s, g)
    ensures Did(env, s, f, E.GrantRefresh(env, s, r, g).state)
    ensures f.Rotated? ==> E.JudgeRefresh(env, s, r) == E.Rotates(f.id, f.clientId) && f.generated == g
    ensures f.Rotated? <==> E.JudgeRefresh(env, s, r).Rotates?
    ensures f.Rotated? || f.Elsewhere? || f.Withdrawn?
    ensures f.Elsewhere? ==> E.GrantRefresh(env, s, r, g).state == s
  {
    hide ForeignKeys, E.IsFresh, E.Rotate, E.AuthenticateClient, E.RefreshedScope, E.RevokeSessionTokens;
    match E.JudgeRefresh(env, s, r)
    case RefreshRefused(_) => f := Elsewhere;
    case Reused(tokenId) =>
      f := ReuseWithdraws(env, s, tokenId, s.refreshTokens[tokenId].row.sessionId);
    case Rotates(tokenId, clientId) =>
      f := Rotated(tokenId, clientId, E.RefreshedScope(s, tokenId, r.scope), g);
  }

  lemma AccessTokenWithdrawn(env: Env, s: State, token: string) returns (f: Effect)
    requires ForeignKeys(s)
    ensures Did(env, s, f, E.RevokeAsAccessToken(s, token).state) && (f.Elsewhere? || f.Withdrawn?)
    ensures f.Elsewhere? ==> E.RevokeAsAccessToken(s, token).state == s
    ensures !E.RevokeAsAccessToken(s, token).found ==> E.RevokeAsAccessToken(s, token).state == s
  {
    hide ForeignKeys;
    if E.RevokeAsAccessToken(s, token).found {
      f := Withdrawn({}, {FindByJti(s.accessTokens, s.signed[token].jti).value}, {});
    } else {
      f := Elsewhere;
    }
  }

  lemma RefreshTokenWithdrawn(env: Env, s: State, token: string) returns (f: Effect)
    requires ForeignKeys(s)
    ensures Did(env, s, f, E.RevokeAsRefreshToken(env, s, token).state) && (f.Elsewhere? || f.Withdrawn?)
    ensures f.Elsewhere? ==> E.RevokeAsRefreshToken(env, s, token).state == s
    ensures !E.RevokeAsRefreshToken(env, s, token).found ==> E.RevokeAsRefreshToken(env, s, token).state == s
  {
    hide ForeignKeys;
    match FindByTokenHash(s.refreshTokens, env.sha256Hex(token))
    case None => f := Elsewhere;
    case Some(id) => f := Withdrawn({}, {s.refreshTokens[id].row.accessTokenId}, {id});
  }

  lemma RevokeEffect(env: Env, s: State, r: E.RevokeRequest) returns (f: Effect)
    requires ForeignKeys(s)
    ensures Did(env, s, f, E.Revoke(env, s, r).state)
    ensures f.Elsewhere? || f.Withdrawn?
    ensures f.Elsewhere? ==> E.Revoke(env, s, r).state == s
  {
    hide ForeignKeys, Did, E.AuthenticateClient, E.RevokeAsAccessToken, E.RevokeAsRefreshToken;
    var access := AccessTokenWithdrawn(env, s, r.token);
    var refresh := RefreshTokenWithdrawn(env, s, r.token);
    var t := E.Revoke(env, s, r).state;
    if t == E.RevokeAsAccessToken(s, r.token).state {
      f := access;
    } else if t == E.RevokeAsRefreshToken(env, s, r.token).state {
      f := refresh;
    } else {
      f := Elsewhere;
      NothingElsewhere(env, s);
    }
  }

  lemma NothingElsewhere(env: Env, s: State)
    requires ForeignKeys(s)
    ensures Did(env, s, Elsewhere, s)
  {
  }

  lemma AuthorizeEffect(env: Env, s: State, r: E.AuthorizeRequest, id: Id, code: string) returns (f: Effect)
    requires ForeignKeys(s) && Enabled(env, s, Authorize(r, id, code))
    ensures Did(env, s, f, E.Authorize(s, r, id, code).state)
    ensures f.Elsewhere? || f.Issued?
    ensures f.Elsewhere? ==> E.Authorize(s, r, id, code).state == s
    ensures f.Issued? <==> E.Authorize(s, r, id, code).reply.CodeIssued?
    ensures f.Issued? ==> f.id == id && f.code.code == code && E.JudgeAuthorize(s, r).Admitted?
  {
    hide ForeignKeys;
    var v := E.JudgeAuthorize(s, r);
    if E.Authorize(s, r, id, code).reply.CodeIssued? {
      f := Issued(id, E.NewCode(s, r, v.tenantId, v.clientId, r.sessionCookie.value, code));
    } else {
      f := Elsewhere;
    }
  }

  lemma LoginEffect(env: Env, s: State, tenantCode: string, loginId: string, password: string, id: Id) returns (f: Effect)
    requires ForeignKeys(s) && id !in s.sessions
    ensures Did(env, s, f, E.Login(env, s, tenantCode, loginId, password, id).state)
    ensures f.Elsewhere? || f.Opened?
    ensures f.Elsewhere? ==> E.Login(env, s, tenantCode, loginId, password, id).state == s
  {
    hide ForeignKeys, E.FindPasswordHash;
    var o := E.Login(env, s, tenantCode, loginId, password, id);
    if o.reply.LoggedIn? {
      var tenantId := FindTenantByCode(s, tenantCode).value;
      var userId := FindUserByTenantAndLogin(s, tenantId, loginId).value;
      f := Opened(id, E.NewSession(s, userId, tenantId));
    } else {
      f := Elsewhere;
    }
  }

  /** Key administration changes the keys only. */
  lemma KeyStepFrame(s: State, kid: string, id: Id)
    ensures E.RotateKey(s, kid, id).state == s.(keys := E.RotateKey(s, kid, id).state.keys)
    ensures E.DeactivateKey(s, kid).state == s.(keys := E.DeactivateKey(s, kid).state.keys)
  {
    hide E.RotateKey, E.DeactivateKey;
    RotateKeyFrame(s, kid, id);
    DeactivateKeyFrame(s, kid);
  }

  lemma RotateKeyFrame(s: State, kid: string, id: Id)
    ensures E.RotateKey(s, kid, id).state == s.(keys := E.RotateKey(s, kid, id).state.keys)
  {
    hide ActiveKids, DeactivateIn;
  }

  lemma DeactivateKeyFrame(s: State, kid: string)
    ensures E.DeactivateKey(s, kid).state == s.(keys := E.DeactivateKey(s, kid).state.keys)
  {
    hide ActiveKids, DeactivateIn;
  }

  /** Tenant administration changes the tenants only. */
  lemma TenantStepFrame(s: State, id: Id, code: string, l: E.Lifetimes, ok: bool)
    ensures E.CreateTenant(s, id, code, l, ok).state == s.(tenants := E.CreateTenant(s, id, code, l, ok).state.tenants)
    ensures E.UpdateTenant(s, id, l, ok).state == s.(tenants := E.UpdateTenant(s, id, l, ok).state.tenants)
  {
    hide E.LifetimesValid;
  }

  lemma KeyEffect(env: Env, s: State, kid: string, id: Id)
    requires ForeignKeys(s)
    ensures Did(env, s, Elsewhere, E.RotateKey(s, kid, id).state)
    ensures Did(env, s, Elsewhere, E.DeactivateKey(s, kid).state)
  {
    hide ForeignKeys, E.RotateKey, E.DeactivateKey;
    KeyStepFrame(s, kid, id);
  }

  lemma TenantEffect(env: Env, s: State, id: Id, code: string, l: E.Lifetimes, ok: bool)
    requires ForeignKeys(s)
    ensures Did(env, s, Elsewhere, E.CreateTenant(s, id, code, l, ok).state)
    ensures Did(env, s, Elsewhere, E.UpdateTenant(s, id, l, ok).state)
  {
    hide ForeignKeys, E.CreateTenant, E.UpdateTenant;
    TenantStepFrame(s, id, code, l, ok);
  }

  lemma StepHasEffect(env: Env, s: State, e: Event) returns (f: Effect)
    requires ForeignKeys(s) && PairsSound(s.accessTokens, s.refreshTokens) && ActiveKids(s.keys) != {}
    requires Enabled(env, s, e)
    ensures Did(env, s, f, Step(env, s, e).state)
    ensures f.Opened? ==> e.Login?
    ensures f.Issued? ==> e.Authorize?
    ensures f.Redeemed? ==> e.ExchangeCode? && E.JudgeCode(env, s, e.exchange) == E.CodeAccepted(f.id, f.clientId)
    ensures f.Rotated? ==> e.Refresh? && E.JudgeRefresh(env, s, e.refresh) == E.Rotates(f.id, f.clientId)
    ensures f.Elsewhere? ==> IsSetting(e) || Step(env, s, e).state == s
  {
    hide ForeignKeys, PairsSound, E.IsFresh, ActiveKids, Did;
    hide E.Login, E.Authorize, E.GrantCode, E.GrantRefresh, E.Revoke, E.RevokeEverything;
    hide E.RotateKey, E.DeactivateKey, E.CreateTenant, E.UpdateTenant;
    match e
    case Login(tenantCode, loginId, password, id) => f := LoginEffect(env, s, tenantCode, loginId, password, id);
    case Authorize(r, id, code) => f := AuthorizeEffect(env, s, r, id, code);
    case ExchangeCode(r, g) => f := CodeGrantEffect(env, s, r, g);
    case Refresh(r, g) => f := RefreshGrantEffect(env, s, r, g);
    case Revoke(r) => f := RevokeEffect(env, s, r);
    case RevokeAll => f := EverythingWithdrawn(env, s, s.sessions.Keys);
    case RevokeTenant(id) => f := EverythingWithdrawn(env, s, SessionsOfTenant(s, id));
    case RevokeUser(id) => f := EverythingWithdrawn(env, s, SessionsOfUser(s, id));
    case _ => f := Elsewhere; SettingIsElsewhere(env, s, e);
  }

  /** Ticks and administration leave the session, code and token tables alone. */
  lemma SettingIsElsewhere(env: Env, s: State, e: Event)
    requires ForeignKeys(s) && IsSetting(e)
    ensures Did(env, s, Elsewhere, Step(env, s, e).state)
  {
    hide ForeignKeys, Did, E.RotateKey, E.DeactivateKey, E.CreateTenant, E.UpdateTenant;
    match e
    case RotateKey(kid, id) => KeyEffect(env, s, kid, id);
    case DeactivateKey(kid) => KeyEffect(env, s, kid, 0);
    case CreateTenant(id, code, l, ok) => TenantEffect(env, s, id, code, l, ok);
    case UpdateTenant(id, l, ok) => TenantEffect(env, s, id, "", l, ok);
    case _ => PlainEffect(env, s, e);
  }

  lemma PlainEffect(env: Env, s: State, e: Event)
    requires ForeignKeys(s)
    requires IsSetting(e)
    requires !e.RotateKey? && !e.DeactivateKey? && !e.CreateTenant? && !e.UpdateTenant?
    ensures Did(env, s, Elsewhere, Step(env, s, e).state)
  {
    hide ForeignKeys, E.UserInfo;
  }
}
