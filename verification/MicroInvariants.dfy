/** What every interleaving keeps, whatever fails and wherever requests stop. */
module MicroInvariants {
  import opened Basics
  import opened Schema
  import opened Repository
  import opened Micro
  import I = Invariants
  import E = Endpoints

  // ---------- What every write keeps ----------

  /** Rows stay; a first revocation time never changes; a used code stays used. */
  ghost predicate Grown(a: State, b: State) {
    && a.now <= b.now
    && Evolved(a.sessions, b.sessions) && Evolved(a.accessTokens, b.accessTokens) && Evolved(a.refreshTokens, b.refreshTokens)
    && CodesKept(a.codes, b.codes)
    && IdTokensKept(a.idTokens, b.idTokens)
  }

  ghost predicate CodesKept(a: map<Id, AuthCode>, b: map<Id, AuthCode>) {
    forall x {:trigger b[x]} {:trigger a[x]} | x in a :: x in b && SameCode(a[x], b[x]) && (a[x].IsUsed() ==> b[x].IsUsed())
  }

  ghost predicate IdTokensKept(a: map<Id, IdToken>, b: map<Id, IdToken>) {
    forall x | x in a :: x in b && b[x] == a[x]
  }

  /** The same code up to `used_at`, which every exchange that gets that far overwrites. */
  predicate SameCode(a: AuthCode, b: AuthCode) {
    a.(usedAt := None) == b.(usedAt := None)
  }

  lemma GrownReflexive(a: State)
    ensures Grown(a, a)
  {
  }

  lemma GrownTransitive(a: State, b: State, c: State)
    requires Grown(a, b) && Grown(b, c)
    ensures Grown(a, c)
  {
    hide Evolved;
    EvolvedTransitive(a.sessions, b.sessions, c.sessions);
    EvolvedTransitive(a.accessTokens, b.accessTokens, c.accessTokens);
    EvolvedTransitive(a.refreshTokens, b.refreshTokens, c.refreshTokens);
  }

  lemma RevokedEvolved<T>(rows: Table<T>, which: set<Id>, now: Time)
    ensures Evolved(rows, RevokeIn(rows, which, now))
  {
  }

  lemma InsertedEvolved<T>(rows: Table<T>, id: Id, row: T)
    requires id !in rows
    ensures Evolved(rows, rows[id := Live(row)])
  {
  }

  lemma CallGrows(db: State, c: Call)
    requires CanCall(db, c)
    ensures Grown(db, Called(db, c))
  {
    GrownReflexive(db);
    hide Evolved, RevokeIn, M.CanSaveClient, M.CanSaveUser;
    match c
    case InsertAccess(id, row) => InsertedEvolved(db.accessTokens, id, row);
    case InsertRefresh(id, row) => InsertedEvolved(db.refreshTokens, id, row);
    case InsertSession(id, row) => InsertedEvolved(db.sessions, id, row);
    case UpdateSessions(which) => RevokedEvolved(db.sessions, which, db.now);
    case UpdateAccess(which) => RevokedEvolved(db.accessTokens, which, db.now);
    case UpdateRefresh(which) => RevokedEvolved(db.refreshTokens, which, db.now);
    case _ =>
  }

  lemma CallKeepsIntegrity(db: State, c: Call)
    requires Integrity(db) && CanCall(db, c)
    ensures Integrity(Called(db, c))
  {
    hide Integrity, CanCreateSession, CanCreateCode, CanCreateAccessToken, CanCreateRefreshToken, CanCreateIdToken, CanCreateKey;
    match c
    case MarkUsed(id) => MarkAsUsedKeepsIntegrity(db, id);
    case MarkReuse(_) => SideTablesKeepIntegrity(db, c);
    case SignText(_, _) => SideTablesKeepIntegrity(db, c);
    case InsertAccess(id, row) => CreateAccessTokenKeepsIntegrity(db, id, row);
    case InsertId(id, row) => CreateIdTokenKeepsIntegrity(db, id, row);
    case InsertRefresh(id, row) => CreateRefreshTokenKeepsIntegrity(db, id, row);
    case InsertSession(id, row) => CreateSessionKeepsIntegrity(db, id, row);
    case InsertCode(id, row) => CreateCodeKeepsIntegrity(db, id, row);
    case UpdateSessions(which) => RevokeSessionsKeepsIntegrity(db, which);
    case UpdateAccess(which) => RevokeAccessTokensKeepsIntegrity(db, which);
    case UpdateRefresh(which) => RevokeRefreshTokensKeepsIntegrity(db, which);
    case InsertKey(kid, id) => KeyWritesKeepIntegrity(db, kid, id, {});
    case UpdateKeys(kids) => KeyWritesKeepIntegrity(db, "", 0, kids);
    case SaveTenant(id, row) => SaveTenantKeepsIntegrity(db, id, row);
    case SaveClient(id, row) => SaveClientKeepsIntegrity(db, id, row);
    case SaveUser(id, row) => SaveUserKeepsIntegrity(db, id, row);
  }

  lemma SideTablesKeepIntegrity(db: State, c: Call)
    requires Integrity(db) && (c.MarkReuse? || c.SignText?)
    ensures Integrity(Called(db, c))
  {
    hide PeopleLinked, SessionsLinked, CodesLinked, AccessTokensLinked, IdTokensLinked, RefreshTokensLinked;
    hide ConfigUnique, CodesUnique, AccessTokensUnique, RefreshTokensUnique, KeysUnique;
  }

  lemma SaveTenantKeepsIntegrity(db: State, id: Id, row: Tenant)
    requires Integrity(db) && CanCall(db, SaveTenant(id, row))
    ensures Integrity(Called(db, SaveTenant(id, row)))
  {
  }

  lemma SaveClientKeepsIntegrity(db: State, id: Id, row: Client)
    requires Integrity(db) && CanCall(db, SaveClient(id, row))
    ensures Integrity(Called(db, SaveClient(id, row)))
  {
  }

  lemma SaveUserKeepsIntegrity(db: State, id: Id, row: User)
    requires Integrity(db) && CanCall(db, SaveUser(id, row))
    ensures Integrity(Called(db, SaveUser(id, row)))
  {
  }

  // ---------- The database ----------

  /** Every parent is revoked and in its child's session; every refresh token is in its access token's session. */
  ghost predicate ParentsRevoked(tokens: Table<RefreshToken>) {
    forall x {:trigger tokens[x].row.parentId} | x in tokens && tokens[x].row.parentId.Some? ::
      ParentOk(tokens, tokens[x].row)
  }

  ghost predicate ParentOk(tokens: Table<RefreshToken>, row: RefreshToken)
    requires row.parentId.Some?
  {
    && row.parentId.value in tokens && tokens[row.parentId.value].Revoked?
    && tokens[row.parentId.value].row.sessionId == row.sessionId
  }

  ghost predicate PairsTogether(accessTokens: Table<AccessToken>, tokens: Table<RefreshToken>) {
    forall x {:trigger tokens[x].row.accessTokenId} | x in tokens :: PairOk(accessTokens, tokens[x].row)
  }

  ghost predicate PairOk(accessTokens: Table<AccessToken>, row: RefreshToken) {
    row.accessTokenId in accessTokens && accessTokens[row.accessTokenId].row.sessionId == row.sessionId
  }

  ghost predicate TokensSound(db: State) {
    ParentsRevoked(db.refreshTokens) && PairsTogether(db.accessTokens, db.refreshTokens)
  }

  lemma CallKeepsTokensSound(db: State, c: Call)
    requires TokensSound(db) && CanCall(db, c)
    requires c.InsertRefresh? ==>
      && PairOk(db.accessTokens, c.refresh)
      && (c.refresh.parentId.Some? ==> ParentOk(db.refreshTokens, c.refresh))
    ensures TokensSound(Called(db, c))
  {
    hide M.CanSaveClient, M.CanSaveUser;
    var t := Called(db, c);
    CallGrows(db, c);
    forall x {:trigger t.refreshTokens[x]} | x in t.refreshTokens
      ensures PairOk(t.accessTokens, t.refreshTokens[x].row)
      ensures t.refreshTokens[x].row.parentId.Some? ==> ParentOk(t.refreshTokens, t.refreshTokens[x].row)
    {
      var row := t.refreshTokens[x].row;
      if x in db.refreshTokens {
        assert row == db.refreshTokens[x].row;
      }
      assert PairOk(db.accessTokens, row);
      assert row.parentId.Some? ==> ParentOk(db.refreshTokens, row);
    }
  }

  // ---------- The requests ----------

  predicate HasGrant(t: Thread) {
    !(t.Asked? || t.ClientKnown? || t.ReuseSeen? || t.TakingDown? || t.AccessDown? || t.Answered?)
  }

  /** The old token has been revoked, or the code marked used, by this request. */
  predicate HasSpent(t: Thread) {
    HasGrant(t) && !t.TokenRead? && !t.CodeRead? && !t.Approved?
  }

  /** The rows the request read are still in the database, up to the columns that change. */
  ghost predicate StillThere(db: State, grant: Grant) {
    match grant
    case OfToken(_, _, tokenId, token, _, _) => tokenId in db.refreshTokens && db.refreshTokens[tokenId].row == token
    case OfCode(_, _, codeId, code, _) => codeId in db.codes && SameCode(db.codes[codeId], code)
  }

  ghost predicate IsSpent(db: State, grant: Grant)
    requires StillThere(db, grant)
  {
    match grant
    case OfToken(_, _, tokenId, _, _, _) => db.refreshTokens[tokenId].Revoked?
    case OfCode(_, _, codeId, _, _) => db.codes[codeId].IsUsed()
  }

  ghost predicate InSession(accessTokens: Table<AccessToken>, id: Id, sessionId: Id) {
    id in accessTokens && accessTokens[id].row.sessionId == sessionId
  }

  ghost predicate ThreadSound(db: State, t: Thread) {
    && WellTyped(t)
    && (HasGrant(t) ==> StillThere(db, t.grant))
    && (HasSpent(t) ==> IsSpent(db, t.grant))
    && (t.AccessStored? || t.IdSigned? || t.IdStored? ==> InSession(db.accessTokens, t.accessTokenId, t.grant.SessionId()))
  }

  lemma GrantKept(a: State, b: State, grant: Grant)
    requires Grown(a, b) && StillThere(a, grant)
    ensures StillThere(b, grant) && (IsSpent(a, grant) ==> IsSpent(b, grant))
  {
  }

  lemma ThreadKept(a: State, b: State, t: Thread)
    requires Grown(a, b) && ThreadSound(a, t)
    ensures ThreadSound(b, t)
  {
    hide StillThere, IsSpent, CodesKept;
    if HasGrant(t) { GrantKept(a, b, t.grant); }
  }

  // ---------- What one step of a request writes ----------

  /**
   A step of a request makes at most one write, one that the database accepts; and what it inserts belongs to
   the session of its grant.
   */
  ghost predicate Writes(db: State, t: Thread, g: E.Generated, call: Option<Call>, c: Config) {
    && (call.None? ==> c.db == db)
    && (call.Some? ==>
          && CanCall(db, call.value) && c.db == Called(db, call.value)
          && (call.value.InsertRefresh? ==> RefreshOk(db, call.value.refresh)))
    && Stores(t, g, call, c.thread)
  }

  ghost predicate RefreshOk(db: State, row: RefreshToken) {
    PairOk(db.accessTokens, row) && (row.parentId.Some? ==> ParentOk(db.refreshTokens, row))
  }

  /** A step goes from `AccessSigned` to `AccessStored` exactly when it inserts an access token; likewise for ID tokens. */
  predicate Stores(t: Thread, g: E.Generated, call: Option<Call>, after: Thread) {
    && (t.AccessSigned? && after.AccessStored? <==> call.Some? && call.value.InsertAccess?)
    && (t.IdSigned? && after.IdStored? <==> call.Some? && call.value.InsertId?)
    && (call.Some? && call.value.InsertAccess? ==>
          call.value.newAccess == after.accessTokenId && call.value.access.sessionId == t.grant.SessionId())
    && (call.Some? && call.value.InsertId? ==>
          call.value.newIdToken == g.idTokenId && call.value.idToken.sessionId == t.grant.SessionId() && t.grant.OfCode?)
    && (call.Some? && call.value.InsertRefresh? ==>
          && (t.AccessStored? || t.IdStored?) && after.Answered? && call.value.newRefresh == g.refreshTokenId
          && call.value.refresh.parentId == t.grant.ParentId())
    && (call.Some? && call.value.SignText? ==> t.TenantKnown? || (t.AccessStored? && t.grant.OfCode?))
  }

  lemma AdvanceWrites(env: Env, db: State, t: Thread, g: E.Generated, ok: bool) returns (call: Option<Call>)
    requires ForeignKeys(db) && ThreadSound(db, t)
    ensures Writes(db, t, g, call, Advance(env, db, t, g, ok))
  {
    hide ForeignKeys, InSession;
    if t.TenantKnown? || (t.AccessStored? && t.grant.OfCode?) {
      call := SigningWrites(env, db, t, g, ok);
    } else if t.AccessSigned? || t.IdSigned? {
      call := StoringWrites(env, db, t, g, ok);
    } else if t.AccessStored? || t.IdStored? {
      call := RefreshWrites(env, db, t, g, ok);
    } else {
      call := RevokingWrites(env, db, t, g, ok);
    }
  }

  lemma RevokingWrites(env: Env, db: State, t: Thread, g: E.Generated, ok: bool) returns (call: Option<Call>)
    requires ForeignKeys(db) && ThreadSound(db, t)
    requires !t.TenantKnown? && !t.AccessSigned? && !t.AccessStored? && !t.IdSigned? && !t.IdStored?
    ensures Writes(db, t, g, call, Advance(env, db, t, g, ok))
  {
    hide ForeignKeys;
    call := None;
    if t.Asked? || t.ClientKnown? || t.TokenRead? || t.CodeRead? || t.Spent? || t.Answered? || !ok {
      ReadingWritesNothing(env, db, t, g, ok);
    } else {
      match t
      case ReuseSeen(id, _) => call := if id in db.refreshTokens then Some(MarkReuse(id)) else None;
      case TakingDown(x) => call := Some(UpdateAccess(AccessTokensOf(db, {x})));
      case AccessDown(x) => call := Some(UpdateRefresh(RefreshTokensOf(db, {x})));
      case Approved(grant) => call := Some(if grant.OfToken? then UpdateRefresh({grant.tokenId}) else MarkUsed(grant.codeId));
      case OldRevoked(grant) => call := Some(UpdateAccess({grant.token.accessTokenId}));
    }
  }

  lemma ReadingWritesNothing(env: Env, db: State, t: Thread, g: E.Generated, ok: bool)
    requires ForeignKeys(db) && WellTyped(t)
    requires t.Asked? || t.ClientKnown? || t.TokenRead? || t.CodeRead? || t.Spent? || t.Answered? || !ok
    requires !t.TenantKnown? && !t.AccessSigned? && !t.AccessStored? && !t.IdSigned? && !t.IdStored?
    ensures Advance(env, db, t, g, ok).db == db
  {
    hide ForeignKeys;
  }

  lemma SigningWrites(env: Env, db: State, t: Thread, g: E.Generated, ok: bool) returns (call: Option<Call>)
    requires ForeignKeys(db) && WellTyped(t)
    requires t.TenantKnown? || (t.AccessStored? && t.grant.OfCode?)
    ensures Writes(db, t, g, call, Advance(env, db, t, g, ok))
  {
    hide ForeignKeys;
    var c := Advance(env, db, t, g, ok);
    call := if c.thread.AccessSigned? then Some(SignText(g.accessText, c.db.signed[g.accessText]))
    else if c.thread.IdSigned? then Some(SignText(g.idText, c.db.signed[g.idText]))
    else None;
  }

  lemma StoringWrites(env: Env, db: State, t: Thread, g: E.Generated, ok: bool) returns (call: Option<Call>)
    requires ForeignKeys(db) && ThreadSound(db, t) && (t.AccessSigned? || t.IdSigned?)
    ensures Writes(db, t, g, call, Advance(env, db, t, g, ok))
  {
    hide ForeignKeys, CanCreateAccessToken, CanCreateIdToken;
    call := if Advance(env, db, t, g, ok).thread.Answered? then None
    else if t.AccessSigned? then Some(InsertAccess(g.accessTokenId, NewAccessToken(db, t.grant, t.tenant, t.accessJti)))
    else Some(InsertId(g.idTokenId, IdToken(t.idJti, t.grant.SessionId(), t.grant.clientId, t.grant.code.nonce,
                                            db.now + t.tenant.idTokenLifetime * SECOND)));
  }

  lemma RefreshWrites(env: Env, db: State, t: Thread, g: E.Generated, ok: bool) returns (call: Option<Call>)
    requires ForeignKeys(db) && ThreadSound(db, t)
    requires (t.AccessStored? && t.grant.OfToken?) || t.IdStored?
    ensures Writes(db, t, g, call, Advance(env, db, t, g, ok))
  {
    hide ForeignKeys, CanCreateRefreshToken;
    var row := NewRefreshToken(env, db, t.grant, t.tenant, t.accessTokenId, g);
    call := if ok && CanCreateRefreshToken(db, g.refreshTokenId, row)
      && (t.AccessStored? || t.grant.client.HasGrantType("refresh_token")) then Some(InsertRefresh(g.refreshTokenId, row)) else None;
  }

  /** The request's own locals stay true of the database after its step. */
  lemma AdvanceKeepsThread(env: Env, db: State, t: Thread, g: E.Generated, ok: bool)
    requires ForeignKeys(db) && ThreadSound(db, t)
    requires Grown(db, Advance(env, db, t, g, ok).db)
    ensures ThreadSound(Advance(env, db, t, g, ok).db, Advance(env, db, t, g, ok).thread)
  {
    hide ForeignKeys, Grown;
    if t.ClientKnown? {
      ReadingFindsGrant(env, db, t, g, ok);
    } else if HasGrant(t) {
      GrantKept(db, Advance(env, db, t, g, ok).db, t.grant);
      ThreadKept(db, Advance(env, db, t, g, ok).db, t);
      if t.Approved? {
        SpendingSpends(db, t.grant, ok);
      } else {
        LaterStages(env, db, t, g, ok);
      }
    }
  }

  lemma ReadingFindsGrant(env: Env, db: State, t: Thread, g: E.Generated, ok: bool)
    requires ForeignKeys(db) && t.ClientKnown?
    ensures ThreadSound(Advance(env, db, t, g, ok).db, Advance(env, db, t, g, ok).thread)
  {
    hide ForeignKeys;
  }

  lemma SpendingSpends(db: State, grant: Grant, ok: bool)
    requires StillThere(db, grant)
    ensures ThreadSound(Spend(db, grant, ok).db, Spend(db, grant, ok).thread)
  {
  }

  lemma LaterStages(env: Env, db: State, t: Thread, g: E.Generated, ok: bool)
    requires ForeignKeys(db) && HasGrant(t) && !t.Approved? && ThreadSound(db, t)
    requires ThreadSound(Advance(env, db, t, g, ok).db, t)
    ensures ThreadSound(Advance(env, db, t, g, ok).db, Advance(env, db, t, g, ok).thread)
  {
    hide ForeignKeys, StillThere, IsSpent, CanCreateIdToken, CanCreateRefreshToken;
  }

  // ---------- The invariant of the whole system ----------

  /** Every row minted so far came from a token now revoked, or a code now used, of its own session. */
  ghost predicate OriginOk(db: State, origins: map<Id, Grant>, id: Id, sessionId: Id) {
    && id in origins && StillThere(db, origins[id]) && IsSpent(db, origins[id]) && origins[id].SessionId() == sessionId
  }

  ghost predicate AccessOriginsOk(db: State, origins: map<Id, Grant>) {
    forall x {:trigger db.accessTokens[x]} | x in db.accessTokens :: OriginOk(db, origins, x, db.accessTokens[x].row.sessionId)
  }

  ghost predicate IdOriginsOk(db: State, origins: map<Id, Grant>) {
    forall x {:trigger db.idTokens[x]} | x in db.idTokens ::
      OriginOk(db, origins, x, db.idTokens[x].sessionId) && origins[x].OfCode?
  }

  ghost predicate ThreadsSound(db: State, threads: map<nat, Thread>) {
    forall tid | tid in threads :: ThreadSound(db, threads[tid])
  }

  ghost predicate Invariant(m: System) {
    && Integrity(m.db) && TokensSound(m.db) && ThreadsSound(m.db, m.threads)
    && AccessOriginsOk(m.db, m.accessOrigins) && IdOriginsOk(m.db, m.idOrigins)
  }

  // ---------- It holds along every run ----------

  lemma ThreadsKept(a: State, b: State, threads: map<nat, Thread>)
    requires Grown(a, b) && ThreadsSound(a, threads)
    ensures ThreadsSound(b, threads)
  {
    hide Grown, ThreadSound;
    forall tid | tid in threads
      ensures ThreadSound(b, threads[tid])
    {
      ThreadKept(a, b, threads[tid]);
    }
  }

  lemma OriginKept(a: State, b: State, origins: map<Id, Grant>, id: Id, sessionId: Id)
    requires Grown(a, b) && OriginOk(a, origins, id, sessionId)
    ensures OriginOk(b, origins, id, sessionId)
  {
    GrantKept(a, b, origins[id]);
  }

  /** A call that inserts no access token and no ID token keeps every origin. */
  lemma OriginsKeptByCall(db: State, c: Call, m: System)
    requires CanCall(db, c) && !c.InsertAccess? && !c.InsertId?
    requires AccessOriginsOk(db, m.accessOrigins) && IdOriginsOk(db, m.idOrigins)
    ensures AccessOriginsOk(Called(db, c), m.accessOrigins) && IdOriginsOk(Called(db, c), m.idOrigins)
  {
    var t := Called(db, c);
    CallGrows(db, c);
    hide OriginOk, CanCall, Grown;
    forall x {:trigger t.accessTokens[x]} | x in t.accessTokens
      ensures OriginOk(t, m.accessOrigins, x, t.accessTokens[x].row.sessionId)
    {
      assert x in db.accessTokens && t.accessTokens[x].row == db.accessTokens[x].row;
      OriginKept(db, t, m.accessOrigins, x, db.accessTokens[x].row.sessionId);
    }
    forall x {:trigger t.idTokens[x]} | x in t.idTokens
      ensures OriginOk(t, m.idOrigins, x, t.idTokens[x].sessionId) && x in m.idOrigins && m.idOrigins[x].OfCode?
    {
      assert t.idTokens[x] == db.idTokens[x];
      assert OriginOk(db, m.idOrigins, x, db.idTokens[x].sessionId) && m.idOrigins[x].OfCode?;
      OriginKept(db, t, m.idOrigins, x, db.idTokens[x].sessionId);
    }
  }

  lemma OriginsKeptByInsert(db: State, c: Call, m: System, grant: Grant)
    requires CanCall(db, c) && (c.InsertAccess? || c.InsertId?)
    requires AccessOriginsOk(db, m.accessOrigins) && IdOriginsOk(db, m.idOrigins)
    requires StillThere(db, grant) && IsSpent(db, grant)
    requires c.InsertAccess? ==> c.access.sessionId == grant.SessionId()
    requires c.InsertId? ==> c.idToken.sessionId == grant.SessionId() && grant.OfCode?
    ensures
      && AccessOriginsOk(Called(db, c), if c.InsertAccess? then m.accessOrigins[c.newAccess := grant] else m.accessOrigins)
      && IdOriginsOk(Called(db, c), if c.InsertId? then m.idOrigins[c.newIdToken := grant] else m.idOrigins)
  {
    hide Grown, CanCreateAccessToken, CanCreateIdToken;
    var t := Called(db, c);
    var origins := if c.InsertAccess? then m.accessOrigins[c.newAccess := grant] else m.accessOrigins;
    var idOrigins := if c.InsertId? then m.idOrigins[c.newIdToken := grant] else m.idOrigins;
    CallGrows(db, c);
    GrantKept(db, t, grant);
    hide StillThere, IsSpent;
    forall x {:trigger t.accessTokens[x]} | x in t.accessTokens
      ensures OriginOk(t, origins, x, t.accessTokens[x].row.sessionId)
    {
      if !(c.InsertAccess? && x == c.newAccess) {
        OriginKept(db, t, m.accessOrigins, x, db.accessTokens[x].row.sessionId);
      }
    }
    forall x {:trigger t.idTokens[x]} | x in t.idTokens
      ensures OriginOk(t, idOrigins, x, t.idTokens[x].sessionId) && idOrigins[x].OfCode?
    {
      if !(c.InsertId? && x == c.newIdToken) {
        OriginKept(db, t, m.idOrigins, x, db.idTokens[x].sessionId);
      }
    }
  }

  lemma WritingKeepsOrigins(m: System, t: Thread, g: E.Generated, call: Option<Call>, c: Config)
    requires ThreadSound(m.db, t) && Writes(m.db, t, g, call, c)
    requires AccessOriginsOk(m.db, m.accessOrigins) && IdOriginsOk(m.db, m.idOrigins)
    ensures AccessOriginsOk(c.db,
      if t.AccessSigned? && c.thread.AccessStored? then m.accessOrigins[c.thread.accessTokenId := t.grant] else m.accessOrigins)
    ensures IdOriginsOk(c.db,
      if t.IdSigned? && c.thread.IdStored? then m.idOrigins[g.idTokenId := t.grant] else m.idOrigins)
  {
    hide AccessOriginsOk, IdOriginsOk, CanCall, Called, StillThere, IsSpent, RefreshOk;
    if call.Some? {
      if call.value.InsertAccess? || call.value.InsertId? {
        OriginsKeptByInsert(m.db, call.value, m, t.grant);
      } else {
        OriginsKeptByCall(m.db, call.value, m);
      }
    }
  }

  lemma WritingKeepsTables(db: State, t: Thread, g: E.Generated, call: Option<Call>, c: Config)
    requires Integrity(db) && TokensSound(db) && Writes(db, t, g, call, c)
    ensures Integrity(c.db) && TokensSound(c.db) && Grown(db, c.db)
  {
    hide Integrity, TokensSound, CanCall, Called, Grown, PairOk, ParentOk;
    GrownReflexive(db);
    if call.Some? {
      CallGrows(db, call.value);
      CallKeepsIntegrity(db, call.value);
      CallKeepsTokensSound(db, call.value);
    }
  }

  lemma RunKeepsInvariant(env: Env, m: System, tid: nat, g: E.Generated, ok: bool)
    requires Invariant(m) && tid in m.threads && WellTyped(m.threads[tid])
    ensures Invariant(Ran(env, m, tid, g, ok)) && Grown(m.db, Ran(env, m, tid, g, ok).db)
  {
    hide ForeignKeys, UniqueIndexes, TokensSound, ThreadSound, AccessOriginsOk, IdOriginsOk, Advance, Grown, Writes;
    var t := m.threads[tid];
    var c := Advance(env, m.db, t, g, ok);
    var call := AdvanceWrites(env, m.db, t, g, ok);
    WritingKeepsTables(m.db, t, g, call, c);
    WritingKeepsOrigins(m, t, g, call, c);
    AdvanceKeepsThread(env, m.db, t, g, ok);
    ThreadsKept(m.db, c.db, m.threads);
  }

  lemma CallKeepsInvariant(m: System, call: Call)
    requires Invariant(m) && CanCall(m.db, call) && !call.TokenEndpointOnly()
    ensures Invariant(m.(db := Called(m.db, call))) && Grown(m.db, Called(m.db, call))
  {
    hide Integrity, TokensSound, ThreadsSound, AccessOriginsOk, IdOriginsOk, CanCall, Called, Grown;
    CallGrows(m.db, call);
    CallKeepsIntegrity(m.db, call);
    CallKeepsTokensSound(m.db, call);
    ThreadsKept(m.db, Called(m.db, call), m.threads);
    OriginsKeptByCall(m.db, call, m);
  }

  lemma WaitKeepsInvariant(m: System, to: Time)
    requires Invariant(m) && m.db.now <= to
    ensures Invariant(m.(db := m.db.(now := to))) && Grown(m.db, m.db.(now := to))
  {
    hide StillThere, IsSpent, ThreadSound, PairOk, ParentOk, UniqueIndexes;
    var later := m.db.(now := to);
    assert Grown(m.db, later);
    I.IntegrityOfTables(m.db, later);
    hide Grown, Integrity;
    ThreadsKept(m.db, later, m.threads);
    forall x {:trigger later.accessTokens[x]} | x in later.accessTokens
      ensures OriginOk(later, m.accessOrigins, x, later.accessTokens[x].row.sessionId)
    {
      OriginKept(m.db, later, m.accessOrigins, x, m.db.accessTokens[x].row.sessionId);
    }
    forall x {:trigger later.idTokens[x]} | x in later.idTokens
      ensures OriginOk(later, m.idOrigins, x, later.idTokens[x].sessionId) && x in m.idOrigins && m.idOrigins[x].OfCode?
    {
      OriginKept(m.db, later, m.idOrigins, x, m.db.idTokens[x].sessionId);
    }
  }

  lemma StepKeepsInvariant(env: Env, m: System, e: Step)
    requires Invariant(m) && Enabled(m, e)
    ensures Invariant(After(env, m, e)) && Grown(m.db, After(env, m, e).db)
  {
    hide ForeignKeys, UniqueIndexes, TokensSound, AccessOriginsOk, IdOriginsOk, Ran, CanCall, Called, Grown, ThreadSound;
    match e
    case Wait(to) => WaitKeepsInvariant(m, to);
    case Arrive(tid, request) => GrownReflexive(m.db); ArrivingIsSound(m.db, request);
    case Run(tid, g, ok) => RunKeepsInvariant(env, m, tid, g, ok);
    case Other(call) => CallKeepsInvariant(m, call);
  }

  lemma ArrivingIsSound(db: State, request: Request)
    ensures ThreadSound(db, Asked(request))
  {
  }
}
