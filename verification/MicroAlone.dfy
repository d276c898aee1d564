/**
 The two granularities agree on a request that runs alone: taken call by call with no other step in between and
 no failure, a token request leaves the state and gives the reply of the one-step endpoint.
 */
module MicroAlone {
  import opened Basics
  import opened Schema
  import opened Repository
  import opened Micro
  import opened MicroInvariants
  import E = Endpoints

  /** How many calls a request has left, at most. */
  function CallsLeft(t: Thread): nat {
    match t
    case Asked(_) => 20
    case ClientKnown(_, _, _) => 19
    case TokenRead(_, _, _) => 18
    case CodeRead(_, _) => 18
    case ReuseSeen(_, _) => 4
    case TakingDown(_) => 3
    case AccessDown(_) => 2
    case Approved(_) => 17
    case OldRevoked(_) => 16
    case Spent(_) => 15
    case TenantKnown(_, _) => 14
    case AccessSigned(_, _, _, _) => 13
    case AccessStored(_, _, _, _) => 12
    case IdSigned(_, _, _, _, _, _) => 11
    case IdStored(_, _, _, _, _) => 10
    case Answered(_) => 0
  }

  lemma AdvanceProgresses(env: Env, db: State, t: Thread, g: E.Generated, ok: bool)
    requires ForeignKeys(db) && WellTyped(t) && !t.Answered?
    ensures CallsLeft(Advance(env, db, t, g, ok).thread) < CallsLeft(t)
  {
    hide ForeignKeys, CanCreateAccessToken, CanCreateIdToken, CanCreateRefreshToken;
  }

  lemma AdvanceSound(env: Env, db: State, t: Thread, g: E.Generated, ok: bool)
    requires Integrity(db) && ThreadSound(db, t)
    ensures
      var c := Advance(env, db, t, g, ok);
      Integrity(c.db) && ThreadSound(c.db, c.thread) && Grown(db, c.db)
  {
    hide ForeignKeys, UniqueIndexes, Advance, CanCall, Called, RefreshOk, Grown;
    var call := AdvanceWrites(env, db, t, g, ok);
    GrownReflexive(db);
    if call.Some? {
      CallGrows(db, call.value);
      CallKeepsIntegrity(db, call.value);
    }
    AdvanceKeepsThread(env, db, t, g, ok);
  }

  /** Runs the request to its answer, every call going through. */
  ghost function Complete(env: Env, db: State, t: Thread, g: E.Generated): Config
    requires Integrity(db) && ThreadSound(db, t)
    decreases CallsLeft(t)
  {
    if t.Answered? then Config(db, t)
    else
      AdvanceSound(env, db, t, g, true);
      AdvanceProgresses(env, db, t, g, true);
      var c := Advance(env, db, t, g, true);
      Complete(env, c.db, c.thread, g)
  }

  /** One step of `Complete`, with the step's result given. */
  lemma Unroll(env: Env, db: State, t: Thread, g: E.Generated, c: Config)
    requires Integrity(db) && ThreadSound(db, t) && !t.Answered?
    requires c == Advance(env, db, t, g, true)
    ensures Integrity(c.db) && ThreadSound(c.db, c.thread)
    ensures Complete(env, db, t, g) == Complete(env, c.db, c.thread, g)
  {
    hide Integrity, ThreadSound, Advance;
    AdvanceSound(env, db, t, g, true);
  }

  /** The client and session the grant was read with are the database's. */
  ghost predicate Current(db: State, grant: Grant) {
    && grant.clientId in db.clients && db.clients[grant.clientId] == grant.client
    && grant.SessionId() in db.sessions && db.sessions[grant.SessionId()].row == grant.session
  }

  // ---------- Refresh ----------

  lemma RotateAlone(env: Env, db: State, grant: Grant, g: E.Generated)
    requires Integrity(db) && E.IsFresh(env, db, g)
    requires grant.OfToken? && ThreadSound(db, Approved(grant)) && Current(db, grant)
    ensures
      var o := E.Rotate(env, db, grant.tokenId, grant.clientId, grant.scope, g);
      Complete(env, db, Approved(grant), g) == Config(o.state, Answered(o.reply))
  {
    hide Complete, UniqueIndexes, Advance, ForeignKeys, ThreadSound;
    var s1 := RevokeRefreshTokens(db, {grant.tokenId});
    var s2 := RevokeAccessTokens(s1, {grant.token.accessTokenId});
    RotateFront(env, db, grant, g, s1, s2);
    TokenIsThere(db, grant);
    var tenant := s2.tenants[grant.session.tenantId];
    match FindActive(s2.keys)
    case None => RotateStops(env, s2, grant, tenant, g);
    case Some(kid) =>
      var s3 := E.MintAccessToken(env, s2, kid, grant.token.sessionId, grant.clientId, grant.scope, g);
      var s4 := E.MintRefreshToken(env, s3, Some(grant.tokenId), grant.token.sessionId, g);
      MintAccessAlone(env, s2, grant, tenant, kid, g, s3);
      StoreRefreshAlone(env, s3, AccessStored(grant, tenant, g.accessTokenId, g.accessText), tenant, g, s4);
  }

  lemma TokenIsThere(db: State, grant: Grant)
    requires ThreadSound(db, Approved(grant)) && grant.OfToken?
    ensures grant.tokenId in db.refreshTokens && db.refreshTokens[grant.tokenId].row == grant.token
  {
  }

  lemma RotateFront(env: Env, db: State, grant: Grant, g: E.Generated, s1: State, s2: State)
    requires Integrity(db) && ThreadSound(db, Approved(grant)) && grant.OfToken? && Current(db, grant)
    requires s1 == RevokeRefreshTokens(db, {grant.tokenId}) && s2 == RevokeAccessTokens(s1, {grant.token.accessTokenId})
    ensures Integrity(s2) && grant.session.tenantId in s2.tenants
    ensures ThreadSound(s2, TenantKnown(grant, s2.tenants[grant.session.tenantId]))
    ensures Complete(env, db, Approved(grant), g) == Complete(env, s2, TenantKnown(grant, s2.tenants[grant.session.tenantId]), g)
  {
    hide Complete, UniqueIndexes, ThreadSound;
    Unroll(env, db, Approved(grant), g, Config(s1, OldRevoked(grant)));
    Unroll(env, s1, OldRevoked(grant), g, Config(s2, Spent(grant)));
    Unroll(env, s2, Spent(grant), g, Config(s2, TenantKnown(grant, s2.tenants[grant.session.tenantId])));
  }

  lemma RotateStops(env: Env, db: State, grant: Grant, tenant: Tenant, g: E.Generated)
    requires Integrity(db) && ThreadSound(db, TenantKnown(grant, tenant)) && FindActive(db.keys).None?
    ensures Complete(env, db, TenantKnown(grant, tenant), g) == Fail(db, E.ServerError)
  {
    hide ForeignKeys, UniqueIndexes, ThreadSound;
    Unroll(env, db, TenantKnown(grant, tenant), g, Fail(db, E.ServerError));
  }

  // ---------- Minting, shared by both grants ----------

  lemma MintAccessAlone(env: Env, db: State, grant: Grant, tenant: Tenant, kid: string, g: E.Generated, after: State)
    requires Integrity(db) && ThreadSound(db, TenantKnown(grant, tenant)) && Current(db, grant)
    requires FindActive(db.keys) == Some(kid)
    requires grant.session.tenantId in db.tenants && tenant == db.tenants[grant.session.tenantId]
    requires g.accessTokenId !in db.accessTokens
    requires forall x {:trigger db.accessTokens[x].row.jti} | x in db.accessTokens :: db.accessTokens[x].row.jti != g.accessJti
    requires after == E.MintAccessToken(env, db, kid, grant.SessionId(), grant.clientId, grant.Scope(), g)
    ensures Integrity(after) && ThreadSound(after, AccessStored(grant, tenant, g.accessTokenId, g.accessText))
    ensures Complete(env, db, TenantKnown(grant, tenant), g)
         == Complete(env, after, AccessStored(grant, tenant, g.accessTokenId, g.accessText), g)
  {
    hide Complete, ForeignKeys, UniqueIndexes, ThreadSound;
    var jwt := AccessJwt(kid, g.accessJti, E.IssuerOf(env, tenant.code), grant.session.userId, grant.client.clientId,
                         grant.Scope(), grant.SessionId(), db.now + tenant.accessTokenLifetime * SECOND);
    var signed := Sign(db, g.accessText, jwt);
    Unroll(env, db, TenantKnown(grant, tenant), g, Config(signed, AccessSigned(grant, tenant, g.accessJti, g.accessText)));
    Unroll(env, signed, AccessSigned(grant, tenant, g.accessJti, g.accessText), g,
           Config(after, AccessStored(grant, tenant, g.accessTokenId, g.accessText)));
  }

  lemma StoreRefreshAlone(env: Env, db: State, t: Thread, tenant: Tenant, g: E.Generated, after: State)
    requires (t.AccessStored? && t.grant.OfToken?) || (t.IdStored? && t.grant.client.HasGrantType("refresh_token"))
    requires Integrity(db) && ThreadSound(db, t) && Current(db, t.grant)
    requires t.tenant == tenant && t.accessTokenId == g.accessTokenId && g.accessTokenId in db.accessTokens
    requires t.grant.session.tenantId in db.tenants && tenant == db.tenants[t.grant.session.tenantId]
    requires t.grant.OfToken? ==> t.grant.tokenId in db.refreshTokens
    requires g.refreshTokenId !in db.refreshTokens
    requires forall x {:trigger db.refreshTokens[x].row.tokenHash} | x in db.refreshTokens ::
               db.refreshTokens[x].row.tokenHash != env.sha256Hex(g.refreshText)
    requires after == E.MintRefreshToken(env, db, t.grant.ParentId(), t.grant.SessionId(), g)
    ensures Complete(env, db, t, g)
         == Config(after, Answered(E.Tokens(t.accessText, tenant.accessTokenLifetime, g.refreshText,
                                            if t.IdStored? then t.idText else "", t.grant.Scope())))
  {
    hide ForeignKeys, UniqueIndexes, ThreadSound;
    var tokens := E.Tokens(t.accessText, tenant.accessTokenLifetime, g.refreshText, if t.IdStored? then t.idText else "", t.grant.Scope());
    Unroll(env, db, t, g, Config(after, Answered(tokens)));
  }

  lemma RefreshAlone(env: Env, db: State, r: E.RefreshRequest, g: E.Generated)
    requires Integrity(db) && E.IsFresh(env, db, g)
    ensures ThreadSound(db, Asked(AskRefresh(r)))
    ensures
      var o := E.GrantRefresh(env, db, r, g);
      Complete(env, db, Asked(AskRefresh(r)), g) == Config(o.state, Answered(o.reply))
  {
    hide Complete, UniqueIndexes, Advance, E.Rotate, E.RevokeSessionTokens, E.IsFresh;
    var start := ReadAlone(env, db, AskRefresh(r), g);
    if start.thread.TokenRead? {
      var t := start.thread;
      var c := DecideToken(db, t.revoked, t.sessionRevoked, t.grant);
      assert c == Advance(env, db, t, g, true) by { DecidesToken(env, db, t, g); }
      Unroll(env, db, t, g, c);
      if c.thread.Approved? {
        RotateAlone(env, db, t.grant, g);
      } else if c.thread.ReuseSeen? {
        ReuseAlone(env, db, t.grant.tokenId, t.grant.token.sessionId, g);
      } else {
        AnswerAlone(env, db, c.thread, g);
      }
    } else {
      AnswerAlone(env, db, start.thread, g);
    }
  }

  lemma AnswerAlone(env: Env, db: State, t: Thread, g: E.Generated)
    requires Integrity(db) && ThreadSound(db, t) && t.Answered?
    ensures Complete(env, db, t, g) == Config(db, t)
  {
  }

  lemma DecidesToken(env: Env, db: State, t: Thread, g: E.Generated)
    requires ForeignKeys(db) && WellTyped(t) && t.TokenRead?
    ensures Advance(env, db, t, g, true) == DecideToken(db, t.revoked, t.sessionRevoked, t.grant)
  {
    hide ForeignKeys;
  }

  /** The two reads of a request change nothing. */
  lemma ReadAlone(env: Env, db: State, request: Request, g: E.Generated) returns (c: Config)
    requires Integrity(db)
    ensures ThreadSound(db, Asked(request))
    ensures c.db == db && ThreadSound(db, c.thread)
    ensures var c1 := FindClient(env, db, request, true);
      c == if c1.thread.ClientKnown? then FindPresented(env, db, request, c1.thread.clientId, c1.thread.client, true) else c1
    ensures Complete(env, db, Asked(request), g) == Complete(env, db, c.thread, g)
  {
    hide Complete, UniqueIndexes, ForeignKeys;
    var c1 := FindClient(env, db, request, true);
    Unroll(env, db, Asked(request), g, c1);
    c := c1;
    if c1.thread.ClientKnown? {
      c := FindPresented(env, db, request, c1.thread.clientId, c1.thread.client, true);
      Unroll(env, db, c1.thread, g, c);
    }
  }

  lemma ReuseAlone(env: Env, db: State, tokenId: Id, sessionId: Id, g: E.Generated)
    requires Integrity(db) && tokenId in db.refreshTokens && ThreadSound(db, ReuseSeen(tokenId, sessionId))
    ensures Complete(env, db, ReuseSeen(tokenId, sessionId), g)
         == Fail(E.RevokeSessionTokens(MarkReuseDetected(db, tokenId), sessionId), E.InvalidGrant)
  {
    hide Complete, UniqueIndexes, ForeignKeys;
    var marked := MarkReuseDetected(db, tokenId);
    Unroll(env, db, ReuseSeen(tokenId, sessionId), g, Config(marked, TakingDown(sessionId)));
    TakeDownAlone(env, marked, sessionId, g);
  }

  lemma TakeDownAlone(env: Env, db: State, sessionId: Id, g: E.Generated)
    requires Integrity(db) && ThreadSound(db, TakingDown(sessionId))
    ensures Complete(env, db, TakingDown(sessionId), g) == Fail(E.RevokeSessionTokens(db, sessionId), E.InvalidGrant)
  {
    hide Complete, UniqueIndexes, ForeignKeys;
    var s1 := RevokeAccessTokens(db, AccessTokensOf(db, {sessionId}));
    var s2 := RevokeRefreshTokens(s1, RefreshTokensOf(s1, {sessionId}));
    Unroll(env, db, TakingDown(sessionId), g, Config(s1, AccessDown(sessionId)));
    Unroll(env, s1, AccessDown(sessionId), g, Fail(s2, E.InvalidGrant));
    AnswerAlone(env, s2, Fail(s2, E.InvalidGrant).thread, g);
  }

  // ---------- Code exchange ----------

  lemma MintIdAlone(env: Env, db: State, grant: Grant, tenant: Tenant, kid: string, g: E.Generated, after: State)
    requires Integrity(db) && grant.OfCode? && Current(db, grant)
    requires ThreadSound(db, AccessStored(grant, tenant, g.accessTokenId, g.accessText))
    requires FindActive(db.keys) == Some(kid)
    requires grant.session.tenantId in db.tenants && tenant == db.tenants[grant.session.tenantId]
    requires g.idTokenId !in db.idTokens
    requires after == E.MintIdToken(env, db, kid, grant.code, grant.clientId, g)
    ensures Integrity(after) && ThreadSound(after, IdStored(grant, tenant, g.accessTokenId, g.accessText, g.idText))
    ensures Complete(env, db, AccessStored(grant, tenant, g.accessTokenId, g.accessText), g)
         == Complete(env, after, IdStored(grant, tenant, g.accessTokenId, g.accessText, g.idText), g)
  {
    hide Complete, ForeignKeys, UniqueIndexes, ThreadSound;
    var jwt := IdJwt(kid, g.idJti, E.IssuerOf(env, tenant.code), grant.session.userId, grant.client.clientId,
                     grant.code.nonce, grant.session.createdAt, env.atHash(g.accessText), db.now + tenant.idTokenLifetime * SECOND);
    var signed := Sign(db, g.idText, jwt);
    Unroll(env, db, AccessStored(grant, tenant, g.accessTokenId, g.accessText), g,
           Config(signed, IdSigned(grant, tenant, g.accessTokenId, g.accessText, g.idJti, g.idText)));
    Unroll(env, signed, IdSigned(grant, tenant, g.accessTokenId, g.accessText, g.idJti, g.idText), g,
           Config(after, IdStored(grant, tenant, g.accessTokenId, g.accessText, g.idText)));
  }

  lemma RedeemAlone(env: Env, db: State, grant: Grant, g: E.Generated)
    requires Integrity(db) && E.IsFresh(env, db, g)
    requires grant.OfCode? && ThreadSound(db, Approved(grant)) && Current(db, grant)
    requires grant.codeId in db.codes && SameCode(db.codes[grant.codeId], grant.code)
    ensures
      var o := E.RedeemCode(env, db, grant.codeId, grant.clientId, g);
      Complete(env, db, Approved(grant), g) == Config(o.state, Answered(o.reply))
  {
    hide Complete, UniqueIndexes, Advance, ForeignKeys, ThreadSound, E.IsFresh, E.MintAccessToken, E.MintIdToken, E.MintRefreshToken;
    var s1 := MarkAsUsed(db, grant.codeId);
    FreshAfterMark(env, db, grant.codeId, g);
    RedeemFront(env, db, grant, g, s1);
    var tenant := s1.tenants[grant.session.tenantId];
    match FindActive(s1.keys)
    case None => RotateStops(env, s1, grant, tenant, g);
    case Some(kid) =>
      RedeemTail(env, s1, grant, tenant, kid, g);
      MintIgnoresUse(env, s1, kid, grant, db.codes[grant.codeId], g);
  }

  lemma FreshAfterMark(env: Env, db: State, id: Id, g: E.Generated)
    requires E.IsFresh(env, db, g) && id in db.codes
    ensures E.IsFresh(env, MarkAsUsed(db, id), g)
  {
  }

  /** The ID token does not depend on the code's `used_at`. */
  lemma MintIgnoresUse(env: Env, s: State, kid: string, grant: Grant, code: AuthCode, g: E.Generated)
    requires ForeignKeys(s) && grant.OfCode? && SameCode(code, grant.code) && Current(s, grant)
    ensures grant.session.tenantId in s.tenants
    ensures
      var s2 := E.MintAccessToken(env, s, kid, grant.SessionId(), grant.clientId, grant.Scope(), g);
      E.MintIdToken(env, s2, kid, grant.code, grant.clientId, g) == E.MintIdToken(env, s2, kid, code, grant.clientId, g)
  {
  }

  lemma RedeemTail(env: Env, s1: State, grant: Grant, tenant: Tenant, kid: string, g: E.Generated)
    requires Integrity(s1) && E.IsFresh(env, s1, g)
    requires grant.OfCode? && ThreadSound(s1, TenantKnown(grant, tenant)) && Current(s1, grant)
    requires FindActive(s1.keys) == Some(kid)
    requires grant.session.tenantId in s1.tenants && tenant == s1.tenants[grant.session.tenantId]
    ensures
      var s2 := E.MintAccessToken(env, s1, kid, grant.SessionId(), grant.clientId, grant.Scope(), g);
      var s3 := E.MintIdToken(env, s2, kid, grant.code, grant.clientId, g);
      var refreshable := grant.client.HasGrantType("refresh_token");
      Complete(env, s1, TenantKnown(grant, tenant), g)
      == Config(if refreshable then E.MintRefreshToken(env, s3, None, grant.SessionId(), g) else s3,
                Answered(E.Tokens(g.accessText, tenant.accessTokenLifetime, if refreshable then g.refreshText else "", g.idText, grant.Scope())))
  {
    hide Complete, UniqueIndexes, Advance, ForeignKeys, ThreadSound;
    var s2 := E.MintAccessToken(env, s1, kid, grant.SessionId(), grant.clientId, grant.Scope(), g);
    MintAccessAlone(env, s1, grant, tenant, kid, g, s2);
    var s3 := E.MintIdToken(env, s2, kid, grant.code, grant.clientId, g);
    MintIdAlone(env, s2, grant, tenant, kid, g, s3);
    FinishRedeemAlone(env, s3, IdStored(grant, tenant, g.accessTokenId, g.accessText, g.idText), tenant, g);
  }

  lemma FinishRedeemAlone(env: Env, db: State, t: Thread, tenant: Tenant, g: E.Generated)
    requires Integrity(db) && t.IdStored? && ThreadSound(db, t) && Current(db, t.grant)
    requires t.tenant == tenant && t.accessTokenId == g.accessTokenId && g.accessTokenId in db.accessTokens
    requires t.grant.session.tenantId in db.tenants && tenant == db.tenants[t.grant.session.tenantId]
    requires g.refreshTokenId !in db.refreshTokens
    requires forall x {:trigger db.refreshTokens[x].row.tokenHash} | x in db.refreshTokens ::
               db.refreshTokens[x].row.tokenHash != env.sha256Hex(g.refreshText)
    ensures
      var refreshable := t.grant.client.HasGrantType("refresh_token");
      Complete(env, db, t, g)
      == Config(if refreshable then E.MintRefreshToken(env, db, None, t.grant.SessionId(), g) else db,
                Answered(E.Tokens(t.accessText, tenant.accessTokenLifetime, if refreshable then g.refreshText else "", t.idText, t.grant.Scope())))
  {
    hide Complete, UniqueIndexes, ForeignKeys, ThreadSound;
    assert t.grant.ParentId() == None by { TypedCode(db, t); }
    if t.grant.client.HasGrantType("refresh_token") {
      StoreRefreshAlone(env, db, t, tenant, g, E.MintRefreshToken(env, db, None, t.grant.SessionId(), g));
    } else {
      WithoutRefresh(env, db, t, g);
    }
  }

  lemma TypedCode(db: State, t: Thread)
    requires ThreadSound(db, t) && t.IdStored?
    ensures t.grant.OfCode?
  {
  }

  lemma WithoutRefresh(env: Env, db: State, t: Thread, g: E.Generated)
    requires Integrity(db) && ThreadSound(db, t) && t.IdStored? && !t.grant.client.HasGrantType("refresh_token")
    ensures Complete(env, db, t, g) == Config(db, Answered(E.Tokens(t.accessText, t.tenant.accessTokenLifetime, "", t.idText, t.grant.Scope())))
  {
    hide ForeignKeys, UniqueIndexes, ThreadSound;
    Unroll(env, db, t, g, Config(db, Answered(E.Tokens(t.accessText, t.tenant.accessTokenLifetime, "", t.idText, t.grant.Scope()))));
  }

  lemma RedeemFront(env: Env, db: State, grant: Grant, g: E.Generated, s1: State)
    requires Integrity(db) && ThreadSound(db, Approved(grant)) && grant.OfCode? && Current(db, grant)
    requires grant.codeId in db.codes && s1 == MarkAsUsed(db, grant.codeId)
    ensures Integrity(s1) && grant.session.tenantId in s1.tenants
    ensures ThreadSound(s1, TenantKnown(grant, s1.tenants[grant.session.tenantId]))
    ensures Complete(env, db, Approved(grant), g) == Complete(env, s1, TenantKnown(grant, s1.tenants[grant.session.tenantId]), g)
  {
    hide Complete, UniqueIndexes, ThreadSound;
    Unroll(env, db, Approved(grant), g, Config(s1, Spent(grant)));
    Unroll(env, s1, Spent(grant), g, Config(s1, TenantKnown(grant, s1.tenants[grant.session.tenantId])));
  }

  lemma ExchangeAlone(env: Env, db: State, r: E.CodeRequest, g: E.Generated)
    requires Integrity(db) && E.IsFresh(env, db, g)
    ensures ThreadSound(db, Asked(AskExchange(r)))
    ensures
      var o := E.GrantCode(env, db, r, g);
      Complete(env, db, Asked(AskExchange(r)), g) == Config(o.state, Answered(o.reply))
  {
    hide Complete, UniqueIndexes, Advance, E.RedeemCode, E.RevokeSessionTokens, E.IsFresh;
    var start := ReadAlone(env, db, AskExchange(r), g);
    if start.thread.CodeRead? {
      var t := start.thread;
      var c := DecideCode(env, db, t.exchange, t.grant);
      assert c == Advance(env, db, t, g, true) by { DecidesCode(env, db, t, g); }
      Unroll(env, db, t, g, c);
      if c.thread.Approved? {
        RedeemAlone(env, db, t.grant, g);
      } else if c.thread.TakingDown? {
        TakeDownAlone(env, db, t.grant.code.sessionId, g);
      } else {
        AnswerAlone(env, db, c.thread, g);
      }
    } else {
      AnswerAlone(env, db, start.thread, g);
    }
  }

  lemma DecidesCode(env: Env, db: State, t: Thread, g: E.Generated)
    requires ForeignKeys(db) && WellTyped(t) && t.CodeRead?
    ensures Advance(env, db, t, g, true) == DecideCode(env, db, t.exchange, t.grant)
  {
    hide ForeignKeys;
  }
}
