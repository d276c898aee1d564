/**
 The endpoint handlers, call by call in the order of the source, over the `Database` object. Each is proved
 to do in one request exactly what the function of `Endpoints` says.
 */
module Handlers {
  import opened Basics
  import opened Schema
  import opened Store
  import R = Repository
  import I = Invariants
  import E = Endpoints
  import Text

  // ---------- Searches in small lists ----------

  /** isRegisteredRedirectURI, containsScope and HasGrantType are this loop. */
  method Contains(xs: seq<string>, target: string) returns (found: bool)
    ensures found <==> target in xs
  {
    for i := 0 to |xs|
      invariant target !in xs[..i]
    {
      if xs[i] == target {
        return true;
      }
    }
    return false;
  }

  method FindPasswordHash(credentials: seq<Credential>) returns (hash: string)
    ensures hash == E.FindPasswordHash(credentials)
  {
    for i := 0 to |credentials|
      invariant E.FindPasswordHash(credentials) == E.FindPasswordHash(credentials[i..])
    {
      if credentials[i].kind == "password" && credentials[i].passwordHash.Some? {
        return credentials[i].passwordHash.value;
      }
      assert credentials[i..][1..] == credentials[i + 1..];
    }
    return "";
  }

  method ValidateLifetimes(vals: seq<Option<int>>) returns (ok: bool)
    ensures ok <==> E.LifetimesValid(vals)
  {
    for i := 0 to |vals|
      invariant E.LifetimesValid(vals[..i])
    {
      if vals[i].Some? && vals[i].value <= 0 {
        return false;
      }
    }
    assert vals[..|vals|] == vals;
    return true;
  }

  /** Revoking a refresh token and its access token uses up no generated value. */
  lemma FreshAfterRevoking(env: Env, s: State, tokenId: Id, g: E.Generated)
    requires tokenId in s.refreshTokens && E.IsFresh(env, s, g)
    ensures
      var t := R.RevokeAccessTokens(R.RevokeRefreshTokens(s, {tokenId}), {s.refreshTokens[tokenId].row.accessTokenId});
      && E.IsFresh(env, t, g) && g.refreshTokenId !in t.refreshTokens
      && (forall x {:trigger t.refreshTokens[x].row.tokenHash} | x in t.refreshTokens ::
            t.refreshTokens[x].row.tokenHash != env.sha256Hex(g.refreshText))
  {
  }

  class Provider {
    const env: Env
    const db: Database

    constructor (env: Env, db: Database)
      ensures this.env == env && this.db == db
    {
      this.env, this.db := env, db;
    }

    // ---------- Login and sessions (auth/service.go) ----------

    method Login(tenantCode: string, loginId: string, password: string, newId: Id) returns (reply: E.Reply)
      requires db.Valid() && newId !in db.sessions
      modifies db
      ensures db.Valid()
      ensures E.Outcome(db.Snap(), reply) == E.Login(env, old(db.Snap()), tenantCode, loginId, password, newId)
    {
      hide UniqueIndexes;
      if tenantCode == "" || loginId == "" || password == "" {
        return E.Failed(E.InvalidRequest);
      }
      var tenant := db.FindTenantByCode(tenantCode);
      if tenant.None? {
        return E.Failed(E.InvalidCredentials);
      }
      var user := db.FindUserByTenantAndLoginID(tenant.value, loginId);
      if user.None? {
        return E.Failed(E.InvalidCredentials);
      }
      if db.users[user.value].status != "active" {
        return E.Failed(E.InvalidCredentials);
      }
      var hash := FindPasswordHash(db.users[user.value].credentials);
      if hash == "" {
        return E.Failed(E.InvalidCredentials);
      }
      var check := env.verifyPassword(password, hash);
      if check.Err? {
        return E.Failed(E.ServerError);
      }
      if !check.value {
        return E.Failed(E.InvalidCredentials);
      }
      var lifetime := db.tenants[tenant.value].sessionLifetime * SECOND;
      db.CreateSession(newId, Session(user.value, tenant.value, db.now + lifetime, db.now));
      return E.LoggedIn(newId);
    }

    method ValidateSession(sessionId: Id) returns (session: Option<Session>)
      ensures session.Some? <==> sessionId in db.sessions && SessionIsValid(db.sessions[sessionId], db.now)
      ensures session.Some? ==> session.value == db.sessions[sessionId].row
    {
      if sessionId !in db.sessions {
        return None;
      }
      if !SessionIsValid(db.sessions[sessionId], db.now) {
        return None;
      }
      return Some(db.sessions[sessionId].row);
    }

    // ---------- Authorize (oidc/authorize.go) ----------

    method Authorize(r: E.AuthorizeRequest, newId: Id, code: string) returns (reply: E.Reply)
      requires db.Valid() && newId !in db.codes
      requires forall x {:trigger db.codes[x].code} | x in db.codes :: db.codes[x].code != code
      modifies db
      ensures db.Valid()
      ensures E.Outcome(db.Snap(), reply) == E.Authorize(old(db.Snap()), r, newId, code)
    {
      hide UniqueIndexes, Text.Split;
      var tenant := db.FindTenantByCode(r.tenantCode);
      if tenant.None? {
        return E.Failed(E.NotFound);
      }
      if r.responseType != "code" {
        return E.Failed(E.UnsupportedResponseType);
      }
      if r.clientId == "" {
        return E.Failed(E.InvalidRequest);
      }
      var client := db.FindByClientID(r.clientId);
      if client.None? || db.clients[client.value].status != "active" {
        return E.Failed(E.InvalidRequest);
      }
      if db.clients[client.value].tenantId != tenant.value {
        return E.Failed(E.InvalidRequest);
      }
      if r.redirectUri == "" {
        return E.Failed(E.InvalidRequest);
      }
      var registered := Contains(db.clients[client.value].redirectUris, r.redirectUri);
      if !registered {
        return E.Failed(E.InvalidRequest);
      }
      var openid := Contains(Text.Split(r.scope, ' '), "openid");
      if !openid {
        return E.Failed(E.InvalidScope);
      }
      var allowed := Contains(db.clients[client.value].grantTypes, "authorization_code");
      if !allowed {
        return E.Failed(E.UnauthorizedClient);
      }
      if db.clients[client.value].requirePkce {
        if r.codeChallenge == "" {
          return E.Failed(E.InvalidRequest);
        }
        if r.codeChallengeMethod != "S256" {
          return E.Failed(E.InvalidRequest);
        }
      }
      assert E.JudgeAuthorize(db.Snap(), r) == E.Admitted(tenant.value, client.value);
      reply := AuthorizeSession(r, tenant.value, client.value, newId, code);
    }

    /** The second half of `Authorize`: the session of the cookie, the prompt and the new code. */
    method AuthorizeSession(r: E.AuthorizeRequest, tenantId: Id, clientId: Id, newId: Id, code: string) returns (reply: E.Reply)
      requires db.Valid() && newId !in db.codes
      requires forall x {:trigger db.codes[x].code} | x in db.codes :: db.codes[x].code != code
      requires E.JudgeAuthorize(db.Snap(), r) == E.Admitted(tenantId, clientId)
      modifies db
      ensures db.Valid()
      ensures E.Outcome(db.Snap(), reply) == E.Authorize(old(db.Snap()), r, newId, code)
    {
      hide UniqueIndexes, ForeignKeys, E.JudgeAuthorize;
      var sessionId: Option<Id> := None;
      if r.sessionCookie.Some? {
        var session := ValidateSession(r.sessionCookie.value);
        if session.Some? && session.value.tenantId == tenantId {
          sessionId := r.sessionCookie;
        }
      }
      if r.prompt == "none" && sessionId.None? {
        return E.Failed(E.LoginRequired);
      }
      if r.prompt == "login" {
        sessionId := None;
      }
      if sessionId.None? {
        return E.RedirectToLogin;
      }
      var row := AuthCode(sessionId.value, clientId, code, r.redirectUri, r.scope, E.NonEmpty(r.nonce),
                          E.NonEmpty(r.codeChallenge), E.NonEmpty(r.codeChallengeMethod),
                          db.now + db.tenants[tenantId].authCodeLifetime * SECOND, None);
      db.CreateCode(newId, row);
      return E.CodeIssued(code);
    }

    // ---------- Signing (jwt/token_service.go) ----------

    method SignAccessToken(issuer: string, subject: Id, audience: string, scope: string, sessionId: Id,
                           lifetime: Time, jti: string, text: string) returns (ok: bool)
      requires db.Valid()
      modifies db`signed
      ensures db.Valid()
      ensures ok <==> R.FindActive(db.keys).Some?
      ensures db.Snap() == if ok then
          R.Sign(old(db.Snap()), text, AccessJwt(R.FindActive(db.keys).value, jti, issuer, subject, audience, scope, sessionId, db.now + lifetime))
        else old(db.Snap())
    {
      hide UniqueIndexes, ForeignKeys;
      var kid := db.FindActive();
      if kid.None? {
        return false;
      }
      db.signed := db.signed[text := AccessJwt(kid.value, jti, issuer, subject, audience, scope, sessionId, db.now + lifetime)];
      I.IntegrityOfTables(old(db.Snap()), db.Snap());
      return true;
    }

    method SignIDToken(issuer: string, subject: Id, audience: string, nonce: Option<string>, authTime: Time, atHash: string,
                       lifetime: Time, jti: string, text: string) returns (ok: bool)
      requires db.Valid()
      modifies db`signed
      ensures db.Valid()
      ensures ok <==> R.FindActive(db.keys).Some?
      ensures db.Snap() == if ok then
          R.Sign(old(db.Snap()), text, IdJwt(R.FindActive(db.keys).value, jti, issuer, subject, audience, nonce, authTime, atHash, db.now + lifetime))
        else old(db.Snap())
    {
      hide UniqueIndexes, ForeignKeys;
      var kid := db.FindActive();
      if kid.None? {
        return false;
      }
      db.signed := db.signed[text := IdJwt(kid.value, jti, issuer, subject, audience, nonce, authTime, atHash, db.now + lifetime)];
      I.IntegrityOfTables(old(db.Snap()), db.Snap());
      return true;
    }

    /** The string parses and verifies under a published key, is an access token and has not expired. */
    method ValidateAccessToken(token: string) returns (result: Option<Jwt>)
      requires db.Valid()
      ensures result.Some? <==> E.Validates(db.Snap(), token)
      ensures result.Some? ==> result.value == db.signed[token] && result.value.AccessJwt?
    {
      hide UniqueIndexes, ForeignKeys;
      var published := GetJWKSet();
      if token !in db.signed || db.signed[token].kid !in published || db.now >= db.signed[token].exp {
        return None;
      }
      if db.signed[token].IdJwt? {
        return None; // no sid claim
      }
      return Some(db.signed[token]);
    }

    // ---------- Keys (jwt/key_service.go, management/key.go) ----------

    method GetJWKSet() returns (published: set<string>)
      ensures published == R.ActiveKids(db.keys)
    {
      var kids := db.FindAllActive();
      published := {};
      for i := 0 to |kids|
        invariant published == set k | k in kids[..i]
      {
        published := published + {kids[i]};
      }
      assert kids[..|kids|] == kids;
    }

    method EnsureSigningKey(kid: string, id: Id)
      requires db.Valid() && R.CanCreateKey(db.Snap(), kid, id)
      modifies db
      ensures db.Valid() && db.Snap() == E.EnsureSigningKey(old(db.Snap()), kid, id)
    {
      hide UniqueIndexes, ForeignKeys;
      var existing := db.FindActive();
      if existing.None? {
        db.CreateKey(kid, id);
      }
    }

    method RotateKey(kid: string, id: Id) returns (reply: E.Reply)
      requires db.Valid() && R.CanCreateKey(db.Snap(), kid, id)
      modifies db
      ensures db.Valid()
      ensures E.Outcome(db.Snap(), reply) == E.RotateKey(old(db.Snap()), kid, id)
    {
      hide UniqueIndexes, ForeignKeys;
      db.DeactivateAllActive();
      db.CreateKey(kid, id);
      return E.KeyCreated(kid);
    }

    method HandleDeactivate(kid: string) returns (reply: E.Reply)
      requires db.Valid()
      modifies db
      ensures db.Valid()
      ensures E.Outcome(db.Snap(), reply) == E.DeactivateKey(old(db.Snap()), kid)
    {
      hide UniqueIndexes, ForeignKeys;
      if kid !in db.keys {
        return E.Failed(E.NotFound);
      }
      if !db.keys[kid].active {
        return E.Failed(E.BadRequest);
      }
      var activeKeys := db.FindAllActive();
      if |activeKeys| <= 1 {
        return E.Failed(E.BadRequest);
      }
      db.Deactivate(kid);
      return E.NoContent;
    }

    // ---------- Client authentication ----------

    /** FindByClientID, status, secret: the opening of both grants and of revocation. */
    method AuthenticateClient(c: E.Credentials) returns (r: Option<Id>)
      requires db.Valid() && c.clientId != "" && c.secret != ""
      ensures r == E.AuthenticateClient(env, db.Snap(), c)
    {
      hide UniqueIndexes, ForeignKeys;
      var client := db.FindByClientID(c.clientId);
      if client.None? || db.clients[client.value].status != "active" {
        return None;
      }
      var matches := env.verifyPassword(c.secret, db.clients[client.value].secretHash);
      if matches.Err? || !matches.value {
        return None;
      }
      return client;
    }

    // ---------- Authorization code grant (oidc/token_authcode.go) ----------

    method HandleAuthCodeGrant(r: E.CodeRequest, g: E.Generated) returns (reply: E.Reply)
      requires db.Valid() && E.IsFresh(env, db.Snap(), g)
      modifies db
      ensures db.Valid()
      ensures E.Outcome(db.Snap(), reply) == E.GrantCode(env, old(db.Snap()), r, g)
    {
      hide UniqueIndexes, ForeignKeys, E.RedeemCode, E.AuthenticateClient, E.RevokeSessionTokens, E.IsFresh;
      if r.credentials.clientId == "" || r.credentials.secret == "" {
        return E.Failed(E.InvalidClient);
      }
      if r.code == "" {
        return E.Failed(E.InvalidRequest);
      }
      var client := AuthenticateClient(r.credentials);
      if client.None? {
        return E.Failed(E.InvalidClient);
      }
      var authCode := db.FindByCode(r.code);
      if authCode.None? {
        return E.Failed(E.InvalidGrant);
      }
      var code := db.codes[authCode.value];
      if code.IsUsed() {
        RevokeSessionTokens(code.sessionId);
        return E.Failed(E.InvalidGrant);
      }
      if code.IsExpired(db.now) {
        return E.Failed(E.InvalidGrant);
      }
      if code.clientId != client.value {
        return E.Failed(E.InvalidGrant);
      }
      if code.redirectUri != r.redirectUri {
        return E.Failed(E.InvalidGrant);
      }
      if code.challenge.Some? && code.challenge.value != "" {
        if r.verifier == "" {
          return E.Failed(E.InvalidGrant);
        }
        if env.s256(r.verifier) != code.challenge.value {
          return E.Failed(E.InvalidGrant);
        }
      }
      assert E.JudgeCode(env, db.Snap(), r) == E.CodeAccepted(authCode.value, client.value);
      reply := RedeemCode(authCode.value, client.value, g);
    }

    /** RevokeBySessionID on both token tables. */
    method RevokeSessionTokens(sessionId: Id)
      requires db.Valid()
      modifies db
      ensures db.Valid() && db.Snap() == E.RevokeSessionTokens(old(db.Snap()), sessionId)
    {
      hide Integrity;
      var _ := db.RevokeAccessTokensOf({sessionId});
      var _ := db.RevokeRefreshTokensOf({sessionId});
    }

    /** SignAccessToken and the access-token row. */
    method MintAccessToken(sessionId: Id, clientId: Id, scope: string, session: Session, tenant: Tenant, g: E.Generated) returns (ok: bool)
      requires db.Valid() && sessionId in db.sessions && clientId in db.clients && session.tenantId in db.tenants
      requires session == db.sessions[sessionId].row && tenant == db.tenants[session.tenantId] && E.IsFresh(env, db.Snap(), g)
      modifies db`signed, db`accessTokens
      ensures db.Valid() && (ok ==> g.accessTokenId in db.accessTokens)
      ensures ok <==> R.FindActive(db.keys).Some?
      ensures db.Snap() ==
        if ok then E.MintAccessToken(env, old(db.Snap()), R.FindActive(db.keys).value, sessionId, clientId, scope, g) else old(db.Snap())
    {
      hide UniqueIndexes, ForeignKeys, R.FindActive;
      var issuer := env.issuerBaseUrl + "/" + tenant.code;
      var audience := db.clients[clientId].clientId;
      var lifetime := tenant.accessTokenLifetime * SECOND;
      ok := SignAccessToken(issuer, session.userId, audience, scope, sessionId, lifetime, g.accessJti, g.accessText);
      if ok {
        db.CreateAccessToken(g.accessTokenId, AccessToken(g.accessJti, sessionId, clientId, scope, db.now + lifetime));
      }
    }

    /** at_hash, SignIDToken and the ID-token row. */
    method MintIdToken(code: AuthCode, clientId: Id, session: Session, tenant: Tenant, g: E.Generated) returns (ok: bool)
      requires db.Valid() && g.idTokenId !in db.idTokens
      requires code.sessionId in db.sessions && clientId in db.clients && session.tenantId in db.tenants
      requires session == db.sessions[code.sessionId].row && tenant == db.tenants[session.tenantId]
      modifies db`signed, db`idTokens
      ensures db.Valid()
      ensures ok <==> R.FindActive(db.keys).Some?
      ensures db.Snap() ==
        if ok then E.MintIdToken(env, old(db.Snap()), R.FindActive(db.keys).value, code, clientId, g) else old(db.Snap())
    {
      hide UniqueIndexes, ForeignKeys, R.FindActive;
      var issuer := env.issuerBaseUrl + "/" + tenant.code;
      var audience := db.clients[clientId].clientId;
      var lifetime := tenant.idTokenLifetime * SECOND;
      var atHash := env.atHash(g.accessText);
      ok := SignIDToken(issuer, session.userId, audience, code.nonce, session.createdAt, atHash, lifetime, g.idJti, g.idText);
      if ok {
        db.CreateIdToken(g.idTokenId, IdToken(g.idJti, code.sessionId, clientId, code.nonce, db.now + lifetime));
      }
    }

    /** GenerateRefreshToken and the refresh-token row. */
    method MintRefreshToken(parentId: Option<Id>, sessionId: Id, tenant: Tenant, g: E.Generated)
      requires db.Valid() && sessionId in db.sessions && g.accessTokenId in db.accessTokens
      requires db.sessions[sessionId].row.tenantId in db.tenants && tenant == db.tenants[db.sessions[sessionId].row.tenantId]
      requires parentId.Some? ==> parentId.value in db.refreshTokens
      requires g.refreshTokenId !in db.refreshTokens
      requires forall x {:trigger db.refreshTokens[x].row.tokenHash} | x in db.refreshTokens ::
                 db.refreshTokens[x].row.tokenHash != env.sha256Hex(g.refreshText)
      modifies db`refreshTokens
      ensures db.Valid()
      ensures db.Snap() == E.MintRefreshToken(env, old(db.Snap()), parentId, sessionId, g)
    {
      hide UniqueIndexes, ForeignKeys;
      var hash := env.sha256Hex(g.refreshText);
      var lifetime := tenant.refreshTokenLifetime * SECOND;
      db.CreateRefreshToken(g.refreshTokenId, RefreshToken(hash, parentId, sessionId, g.accessTokenId, db.now + lifetime));
    }

    /** From MarkAsUsed to the token response. */
    method RedeemCode(codeId: Id, clientId: Id, g: E.Generated) returns (reply: E.Reply)
      requires db.Valid() && codeId in db.codes && clientId in db.clients && E.IsFresh(env, db.Snap(), g)
      modifies db
      ensures db.Valid()
      ensures E.Outcome(db.Snap(), reply) == E.RedeemCode(env, old(db.Snap()), codeId, clientId, g)
    {
      hide UniqueIndexes, R.FindActive, E.MintAccessToken, E.MintIdToken, E.MintRefreshToken;
      var code := db.codes[codeId];
      var session := db.sessions[code.sessionId].row;
      db.MarkAsUsed(codeId);
      var tenant := db.tenants[session.tenantId];
      var client := db.clients[clientId];
      var ok := MintAccessToken(code.sessionId, clientId, code.scope, session, tenant, g);
      if !ok {
        return E.Failed(E.ServerError);
      }
      ok := MintIdToken(code, clientId, session, tenant, g);
      if !ok {
        return E.Failed(E.ServerError);
      }
      var refreshText := "";
      var refreshable := Contains(client.grantTypes, "refresh_token");
      if refreshable {
        refreshText := g.refreshText;
        MintRefreshToken(None, code.sessionId, tenant, g);
      }
      return E.Tokens(g.accessText, tenant.accessTokenLifetime, refreshText, g.idText, code.scope);
    }

    // ---------- Refresh token grant (oidc/token_refresh.go) ----------

    method HandleRefreshTokenGrant(r: E.RefreshRequest, g: E.Generated) returns (reply: E.Reply)
      requires db.Valid() && E.IsFresh(env, db.Snap(), g)
      modifies db
      ensures db.Valid()
      ensures E.Outcome(db.Snap(), reply) == E.GrantRefresh(env, old(db.Snap()), r, g)
    {
      hide UniqueIndexes, E.Rotate, E.AuthenticateClient, E.RevokeSessionTokens, E.IsFresh;
      if r.credentials.clientId == "" || r.credentials.secret == "" {
        return E.Failed(E.InvalidClient);
      }
      if r.refreshToken == "" {
        return E.Failed(E.InvalidRequest);
      }
      var client := AuthenticateClient(r.credentials);
      if client.None? {
        return E.Failed(E.InvalidClient);
      }
      var allowed := Contains(db.clients[client.value].grantTypes, "refresh_token");
      if !allowed {
        return E.Failed(E.UnsupportedGrantType);
      }
      var tokenHash := env.sha256Hex(r.refreshToken);
      var found := db.FindByTokenHash(tokenHash);
      if found.None? {
        return E.Failed(E.InvalidGrant);
      }
      var rt := db.refreshTokens[found.value];
      if rt.Revoked? {
        db.MarkReuseDetected(found.value);
        RevokeSessionTokens(rt.row.sessionId);
        return E.Failed(E.InvalidGrant);
      }
      if rt.row.expiresAt < db.now {
        return E.Failed(E.InvalidGrant);
      }
      var session := db.sessions[rt.row.sessionId];
      if session.Revoked? || session.row.expiresAt < db.now {
        return E.Failed(E.InvalidGrant);
      }
      assert E.JudgeRefresh(env, db.Snap(), r) == E.Rotates(found.value, client.value);
      reply := Rotate(found.value, client.value, r.scope, g);
    }

    /** From the revocation of the presented token to the token response. */
    method Rotate(tokenId: Id, clientId: Id, requested: string, g: E.Generated) returns (reply: E.Reply)
      requires db.Valid() && tokenId in db.refreshTokens && clientId in db.clients && E.IsFresh(env, db.Snap(), g)
      modifies db
      ensures db.Valid()
      ensures ForeignKeys(old(db.Snap()))
      ensures E.Outcome(db.Snap(), reply) ==
        E.Rotate(env, old(db.Snap()), tokenId, clientId, E.RefreshedScope(old(db.Snap()), tokenId, requested), g)
    {
      FreshAfterRevoking(env, db.Snap(), tokenId, g);
      hide UniqueIndexes, R.FindActive, E.MintAccessToken, E.MintRefreshToken, E.IsFresh;
      var rt := db.refreshTokens[tokenId].row;
      var session := db.sessions[rt.sessionId].row;
      var scope := db.accessTokens[rt.accessTokenId].row.scope;
      db.RevokeRefreshToken(tokenId);
      db.RevokeAccessToken(rt.accessTokenId);
      var tenant := db.tenants[session.tenantId];
      if requested != "" {
        scope := requested;
      }
      var ok := MintAccessToken(rt.sessionId, clientId, scope, session, tenant, g);
      if !ok {
        return E.Failed(E.ServerError);
      }
      MintRefreshToken(Some(tokenId), rt.sessionId, tenant, g);
      return E.Tokens(g.accessText, tenant.accessTokenLifetime, g.refreshText, "", scope);
    }

    // ---------- Userinfo (oidc/userinfo.go) ----------

    method UserInfo(token: string) returns (reply: E.Reply)
      requires db.Valid()
      ensures reply == E.UserInfo(db.Snap(), token)
    {
      hide UniqueIndexes, ForeignKeys, Text.Split, E.Validates;
      var result := ValidateAccessToken(token);
      if result.None? {
        return E.Failed(E.InvalidToken);
      }
      var dbToken := db.FindByJTI(result.value.jti);
      if dbToken.None? || db.accessTokens[dbToken.value].Revoked? {
        return E.Failed(E.InvalidToken);
      }
      var sub := result.value.sub;
      if sub !in db.users {
        return E.Failed(E.ServerError);
      }
      var claims := BuildClaims(sub, db.users[sub], result.value.scope);
      return E.Claims(claims);
    }

    method BuildClaims(sub: Id, user: User, scope: string) returns (claims: map<string, E.Claim>)
      ensures claims == E.ClaimsOf(sub, user, scope)
    {
      hide Text.Split;
      claims := map["sub" := E.Subject(sub)];
      var scopes := Text.Split(scope, ' ');
      var profile := Contains(scopes, "profile");
      if profile {
        if user.name.Some? {
          claims := claims["name" := E.Words(user.name.value)];
        }
        claims := claims["updated_at" := E.Number(user.updatedAt / SECOND)];
      }
      var email := Contains(scopes, "email");
      if email {
        claims := claims["email" := E.Words(user.email)];
        claims := claims["email_verified" := E.Flag(user.emailVerified)];
      }
    }

    // ---------- Revocation (oidc/revoke.go) ----------

    method RevokeAccessToken(token: string) returns (found: bool)
      requires db.Valid()
      modifies db
      ensures db.Valid()
      ensures E.Attempt(db.Snap(), found) == E.RevokeAsAccessToken(old(db.Snap()), token)
    {
      hide UniqueIndexes, ForeignKeys, E.Validates;
      var result := ValidateAccessToken(token);
      if result.None? {
        return false;
      }
      var dbToken := db.FindByJTI(result.value.jti);
      if dbToken.None? {
        return false;
      }
      db.RevokeAccessToken(dbToken.value);
      return true;
    }

    method RevokeRefreshToken(token: string) returns (found: bool)
      requires db.Valid()
      modifies db
      ensures db.Valid()
      ensures E.Attempt(db.Snap(), found) == E.RevokeAsRefreshToken(env, old(db.Snap()), token)
    {
      hide UniqueIndexes, ForeignKeys;
      var rt := db.FindByTokenHash(env.sha256Hex(token));
      if rt.None? {
        return false;
      }
      var accessTokenId := db.refreshTokens[rt.value].row.accessTokenId;
      db.RevokeRefreshToken(rt.value);
      db.RevokeAccessToken(accessTokenId);
      return true;
    }

    method Revoke(r: E.RevokeRequest) returns (reply: E.Reply)
      requires db.Valid()
      modifies db
      ensures db.Valid()
      ensures E.Outcome(db.Snap(), reply) == E.Revoke(env, old(db.Snap()), r)
    {
      hide UniqueIndexes, ForeignKeys, E.RevokeAsAccessToken, E.RevokeAsRefreshToken;
      if r.credentials.clientId == "" || r.credentials.secret == "" {
        return E.Failed(E.InvalidClient);
      }
      var client := AuthenticateClient(r.credentials);
      if client.None? {
        return E.Failed(E.InvalidClient);
      }
      if r.token == "" {
        return E.NoContent;
      }
      match r.hint {
        case "refresh_token" =>
          var found := RevokeRefreshToken(r.token);
          if !found {
            found := RevokeAccessToken(r.token);
          }
        case _ =>
          var found := RevokeAccessToken(r.token);
          if !found {
            found := RevokeRefreshToken(r.token);
          }
      }
      return E.NoContent;
    }

    // ---------- Incident response (management/incident.go) ----------

    method HandleRevokeAll() returns (reply: E.Reply)
      requires db.Valid()
      modifies db
      ensures db.Valid()
      ensures E.Outcome(db.Snap(), reply) == E.RevokeAll(old(db.Snap()))
    {
      hide Integrity;
      AllRowsHaveSessions(db.Snap());
      var sessions := db.RevokeAllSessions();
      var accessTokens := db.RevokeAllAccessTokens();
      var refreshTokens := db.RevokeAllRefreshTokens();
      reply := E.RevokedCounts(sessions, accessTokens, refreshTokens);
    }

    /** The subquery `SELECT id FROM sessions WHERE tenant_id = ?`. */
    method HandleRevokeTenant(tenantId: Id) returns (reply: E.Reply)
      requires db.Valid()
      modifies db
      ensures db.Valid()
      ensures E.Outcome(db.Snap(), reply) == E.RevokeTenant(old(db.Snap()), tenantId)
    {
      hide Integrity;
      var sessions := db.RevokeSessionsByTenantID(tenantId);
      var chosen := set x | x in db.sessions && db.sessions[x].row.tenantId == tenantId;
      assert chosen == R.SessionsOfTenant(old(db.Snap()), tenantId);
      var accessTokens := db.RevokeAccessTokensOf(chosen);
      var refreshTokens := db.RevokeRefreshTokensOf(chosen);
      reply := E.RevokedCounts(sessions, accessTokens, refreshTokens);
    }

    method HandleRevokeUser(userId: Id) returns (reply: E.Reply)
      requires db.Valid()
      modifies db
      ensures db.Valid()
      ensures E.Outcome(db.Snap(), reply) == E.RevokeUser(old(db.Snap()), userId)
    {
      hide Integrity;
      var sessions := db.RevokeSessionsByUserID(userId);
      var chosen := set x | x in db.sessions && db.sessions[x].row.userId == userId;
      assert chosen == R.SessionsOfUser(old(db.Snap()), userId);
      var accessTokens := db.RevokeAccessTokensOf(chosen);
      var refreshTokens := db.RevokeRefreshTokensOf(chosen);
      reply := E.RevokedCounts(sessions, accessTokens, refreshTokens);
    }

    // ---------- Tenants (management/tenant.go) ----------

    method HandleCreateTenant(id: Id, code: string, l: E.Lifetimes, wellFormed: bool) returns (reply: E.Reply)
      requires db.Valid() && id !in db.tenants
      modifies db
      ensures db.Valid()
      ensures E.Outcome(db.Snap(), reply) == E.CreateTenant(old(db.Snap()), id, code, l, wellFormed)
    {
      hide UniqueIndexes, ForeignKeys, E.LifetimesValid;
      if !wellFormed {
        return E.Failed(E.BadRequest);
      }
      var ok := ValidateLifetimes([l.session, l.authCode, l.accessToken, l.refreshToken, l.idToken]);
      if !ok {
        return E.Failed(E.BadRequest);
      }
      var existing := db.FindTenantByCode(code);
      if existing.Some? {
        return E.Failed(E.Conflict);
      }
      db.SaveTenant(id, Tenant(code, E.OrDefault(l.session, 3600), E.OrDefault(l.authCode, 60), E.OrDefault(l.accessToken, 3600),
                               E.OrDefault(l.refreshToken, 2592000), E.OrDefault(l.idToken, 3600)));
      return E.TenantSaved;
    }

    method HandleUpdateTenant(id: Id, l: E.Lifetimes, wellFormed: bool) returns (reply: E.Reply)
      requires db.Valid()
      modifies db
      ensures db.Valid()
      ensures E.Outcome(db.Snap(), reply) == E.UpdateTenant(old(db.Snap()), id, l, wellFormed)
    {
      hide UniqueIndexes, ForeignKeys, E.LifetimesValid;
      if id !in db.tenants {
        return E.Failed(E.NotFound);
      }
      var tenant := db.tenants[id];
      var ok := ValidateLifetimes([l.session, l.authCode, l.accessToken, l.refreshToken, l.idToken]);
      if !ok || !wellFormed {
        return E.Failed(E.BadRequest);
      }
      if l.session.Some? {
        tenant := tenant.(sessionLifetime := l.session.value);
      }
      if l.authCode.Some? {
        tenant := tenant.(authCodeLifetime := l.authCode.value);
      }
      if l.accessToken.Some? {
        tenant := tenant.(accessTokenLifetime := l.accessToken.value);
      }
      if l.refreshToken.Some? {
        tenant := tenant.(refreshTokenLifetime := l.refreshToken.value);
      }
      if l.idToken.Some? {
        tenant := tenant.(idTokenLifetime := l.idToken.value);
      }
      db.SaveTenant(id, tenant);
      return E.TenantSaved;
    }
  }

  /** Every token belongs to some session, so "all tokens" and "the tokens of all sessions" are the same rows. */
  lemma AllRowsHaveSessions(s: State)
    requires Integrity(s)
    ensures R.AccessTokensOf(s, s.sessions.Keys) == s.accessTokens.Keys
    ensures R.RefreshTokensOf(s, s.sessions.Keys) == s.refreshTokens.Keys
  {
    assert forall x | x in s.accessTokens :: s.accessTokens[x].row.sessionId in s.sessions;
    assert forall x | x in s.refreshTokens :: s.refreshTokens[x].row.sessionId in s.sessions;
  }
}
