/** Every reachable state of the serial machine satisfies `Invariant`, and rows only ever evolve. */
module Invariants {
  import opened Basics
  import opened Schema
  import opened Repository
  import opened Machine
  import opened Effects
  import E = Endpoints

  // ---------- Rotation and pairing ----------

  lemma RotationAfterWithdrawal(s: State, accessIds: set<Id>, refreshIds: set<Id>)
    requires RotationSound(s.accessTokens, s.refreshTokens) && Paired(s, accessIds, refreshIds)
    ensures RotationSound(RevokeIn(s.accessTokens, accessIds, s.now), RevokeIn(s.refreshTokens, refreshIds, s.now))
  {
  }

  lemma RotationAfterMint(accessTokens: Table<AccessToken>, refreshTokens: Table<RefreshToken>, a: Id, access: AccessToken)
    requires RotationSound(accessTokens, refreshTokens) && a !in accessTokens
    ensures RotationSound(accessTokens[a := Live(access)], refreshTokens)
  {
  }

  lemma RotationAfterRoot(accessTokens: Table<AccessToken>, refreshTokens: Table<RefreshToken>,
                          a: Id, access: AccessToken, r: Id, refresh: RefreshToken)
    requires RotationSound(accessTokens, refreshTokens)
    requires a !in accessTokens && r !in refreshTokens
    requires refresh.parentId.None? && refresh.accessTokenId == a && refresh.sessionId == access.sessionId
    ensures RotationSound(accessTokens[a := Live(access)], refreshTokens[r := Live(refresh)])
  {
  }

  lemma RotationAfterRotate(accessTokens: Table<AccessToken>, refreshTokens: Table<RefreshToken>, spent: Id, now: Time,
                            a: Id, access: AccessToken, r: Id, refresh: RefreshToken)
    requires RotationSound(accessTokens, refreshTokens)
    requires spent in refreshTokens && refreshTokens[spent].Live?
    requires a !in accessTokens && r !in refreshTokens
    requires refresh.parentId == Some(spent) && refresh.accessTokenId == a
    requires refresh.sessionId == access.sessionId == refreshTokens[spent].row.sessionId
    ensures RotationSound(RevokeIn(accessTokens, {refreshTokens[spent].row.accessTokenId}, now)[a := Live(access)],
                          RevokeIn(refreshTokens, {spent}, now)[r := Live(refresh)])
  {
  }

  lemma RotationKept(env: Env, s: State, f: Effect, t: State)
    requires ForeignKeys(s) && Did(env, s, f, t) && RotationSound(s.accessTokens, s.refreshTokens)
    ensures RotationSound(t.accessTokens, t.refreshTokens)
  {
    hide ForeignKeys, RotationSound, E.IsFresh;
    match f
    case Redeemed(id, clientId, g) =>
      hide E.RedeemCode;
      FreshIds(env, s, g);
      RedeemedTables(env, s, id, clientId, g);
      var access := t.accessTokens[g.accessTokenId].row;
      if s.clients[clientId].HasGrantType("refresh_token") {
        RotationAfterRoot(s.accessTokens, s.refreshTokens, g.accessTokenId, access,
                          g.refreshTokenId, t.refreshTokens[g.refreshTokenId].row);
      } else {
        RotationAfterMint(s.accessTokens, s.refreshTokens, g.accessTokenId, access);
      }
    case Rotated(id, clientId, scope, g) =>
      hide E.Rotate;
      FreshIds(env, s, g);
      RotatedTables(env, s, id, clientId, scope, g);
      RotationAfterRotate(s.accessTokens, s.refreshTokens, id, s.now, g.accessTokenId, t.accessTokens[g.accessTokenId].row,
                          g.refreshTokenId, t.refreshTokens[g.refreshTokenId].row);
    case Withdrawn(_, accessIds, refreshIds) => RotationAfterWithdrawal(s, accessIds, refreshIds);
    case _ =>
  }

  // ---------- Foreign keys and unique indexes ----------

  lemma RedeemKeepsIntegrity(env: Env, s: State, id: Id, clientId: Id, g: E.Generated)
    requires Integrity(s) && id in s.codes && clientId in s.clients && ActiveKids(s.keys) != {} && E.IsFresh(env, s, g)
    ensures Integrity(E.RedeemCode(env, s, id, clientId, g).state)
  {
    hide UniqueIndexes;
    var code := s.codes[id];
    var kid := FindActive(s.keys).value;
    var s1 := MarkAsUsed(s, id);
    MarkAsUsedKeepsIntegrity(s, id);
    var s2 := E.MintAccessToken(env, s1, kid, code.sessionId, clientId, code.scope, g);
    MintAccessTokenKeepsIntegrity(env, s1, kid, code.sessionId, clientId, code.scope, g);
    var s3 := E.MintIdToken(env, s2, kid, code, clientId, g);
    MintIdTokenKeepsIntegrity(env, s2, kid, code, clientId, g);
    if s.clients[clientId].HasGrantType("refresh_token") {
      MintRefreshTokenKeepsIntegrity(env, s3, None, code.sessionId, g);
    }
  }

  lemma MintAccessTokenKeepsIntegrity(env: Env, s: State, kid: string, sessionId: Id, clientId: Id, scope: string, g: E.Generated)
    requires Integrity(s) && sessionId in s.sessions && clientId in s.clients && E.IsFresh(env, s, g)
    ensures Integrity(E.MintAccessToken(env, s, kid, sessionId, clientId, scope, g))
  {
    var t := E.MintAccessToken(env, s, kid, sessionId, clientId, scope, g);
    CreateAccessTokenKeepsIntegrity(s, g.accessTokenId, t.accessTokens[g.accessTokenId].row);
  }

  lemma MintIdTokenKeepsIntegrity(env: Env, s: State, kid: string, code: AuthCode, clientId: Id, g: E.Generated)
    requires Integrity(s) && code.sessionId in s.sessions && clientId in s.clients && g.idTokenId !in s.idTokens
    ensures Integrity(E.MintIdToken(env, s, kid, code, clientId, g))
  {
    var t := E.MintIdToken(env, s, kid, code, clientId, g);
    CreateIdTokenKeepsIntegrity(s, g.idTokenId, t.idTokens[g.idTokenId]);
  }

  lemma MintRefreshTokenKeepsIntegrity(env: Env, s: State, parentId: Option<Id>, sessionId: Id, g: E.Generated)
    requires Integrity(s) && sessionId in s.sessions && g.accessTokenId in s.accessTokens
    requires parentId.Some? ==> parentId.value in s.refreshTokens
    requires g.refreshTokenId !in s.refreshTokens
    requires forall x {:trigger s.refreshTokens[x].row.tokenHash} | x in s.refreshTokens ::
               s.refreshTokens[x].row.tokenHash != env.sha256Hex(g.refreshText)
    ensures Integrity(E.MintRefreshToken(env, s, parentId, sessionId, g))
  {
    var t := E.MintRefreshToken(env, s, parentId, sessionId, g);
    CreateRefreshTokenKeepsIntegrity(s, g.refreshTokenId, t.refreshTokens[g.refreshTokenId].row);
  }

  lemma RotateKeepsIntegrity(env: Env, s: State, id: Id, clientId: Id, scope: string, g: E.Generated)
    requires Integrity(s) && id in s.refreshTokens && clientId in s.clients && ActiveKids(s.keys) != {} && E.IsFresh(env, s, g)
    ensures Integrity(E.Rotate(env, s, id, clientId, scope, g).state)
  {
    hide UniqueIndexes;
    var token := s.refreshTokens[id].row;
    var kid := FindActive(s.keys).value;
    var s1 := RevokeRefreshTokens(s, {id});
    RevokeRefreshTokensKeepsIntegrity(s, {id});
    var s2 := RevokeAccessTokens(s1, {token.accessTokenId});
    RevokeAccessTokensKeepsIntegrity(s1, {token.accessTokenId});
    assert E.IsFresh(env, s2, g);
    var s3 := E.MintAccessToken(env, s2, kid, token.sessionId, clientId, scope, g);
    MintAccessTokenKeepsIntegrity(env, s2, kid, token.sessionId, clientId, scope, g);
    MintRefreshTokenKeepsIntegrity(env, s3, Some(id), token.sessionId, g);
  }

  lemma WithdrawKeepsIntegrity(s: State, sessions: set<Id>, accessIds: set<Id>, refreshIds: set<Id>)
    requires Integrity(s)
    ensures Integrity(s.(sessions := RevokeIn(s.sessions, sessions, s.now),
                         accessTokens := RevokeIn(s.accessTokens, accessIds, s.now),
                         refreshTokens := RevokeIn(s.refreshTokens, refreshIds, s.now)))
  {
    hide Integrity;
    var s1 := RevokeSessions(s, sessions);
    RevokeSessionsKeepsIntegrity(s, sessions);
    var s2 := RevokeAccessTokens(s1, accessIds);
    RevokeAccessTokensKeepsIntegrity(s1, accessIds);
    RevokeRefreshTokensKeepsIntegrity(s2, refreshIds);
  }

  /** `Integrity` looks at the tables only. */
  lemma IntegrityOfTables(s: State, t: State)
    requires Integrity(s)
    requires t.tenants == s.tenants && t.users == s.users && t.clients == s.clients && t.keys == s.keys
    requires t.sessions == s.sessions && t.codes == s.codes && t.accessTokens == s.accessTokens
    requires t.refreshTokens == s.refreshTokens && t.idTokens == s.idTokens
    ensures Integrity(t)
  {
  }

  lemma IntegrityKeptByEffect(env: Env, s: State, f: Effect, t: State)
    requires Integrity(s) && Did(env, s, f, t) && !f.Elsewhere?
    ensures Integrity(t)
  {
    hide ForeignKeys, UniqueIndexes, E.RedeemCode, E.Rotate, E.IsFresh, ActiveKids, Paired;
    match f
    case Opened(id, row) => CreateSessionKeepsIntegrity(s, id, row);
    case Issued(id, row) => CreateCodeKeepsIntegrity(s, id, row);
    case Redeemed(id, clientId, g) => RedeemKeepsIntegrity(env, s, id, clientId, g);
    case Rotated(id, clientId, scope, g) => RotateKeepsIntegrity(env, s, id, clientId, scope, g);
    case Withdrawn(sessions, accessIds, refreshIds) =>
      WithdrawKeepsIntegrity(s, sessions, accessIds, refreshIds);
      IntegrityOfTables(s.(sessions := t.sessions, accessTokens := t.accessTokens, refreshTokens := t.refreshTokens), t);
  }

  // ---------- Tenants, users, clients and keys ----------

  lemma KeysAfterRotation(s: State, kid: string, id: Id)
    requires Integrity(s) && KeysConsistent(s.keys) && CanCreateKey(s, kid, id)
    ensures
      var t := E.RotateKey(s, kid, id).state;
      Integrity(t) && KeysConsistent(t.keys) && ActiveKids(t.keys) == {kid}
  {
    hide Integrity;
    KeyWritesKeepIntegrity(s, kid, id, ActiveKids(s.keys));
    var s1 := DeactivateKeys(s, ActiveKids(s.keys));
    assert CanCreateKey(s1, kid, id);
    KeyWritesKeepIntegrity(s1, kid, id, {});
  }

  lemma KeysAfterDeactivation(s: State, kid: string)
    requires Integrity(s) && KeysConsistent(s.keys) && ActiveKids(s.keys) != {}
    ensures
      var o := E.DeactivateKey(s, kid);
      && Integrity(o.state) && KeysConsistent(o.state.keys) && ActiveKids(o.state.keys) != {}
      && ActiveKids(o.state.keys) == if o.reply.NoContent? then ActiveKids(s.keys) - {kid} else ActiveKids(s.keys)
  {
    hide Integrity;
    KeyWritesKeepIntegrity(s, kid, 0, {kid});
    if |ActiveKids(s.keys)| > 1 && ActiveKids(s.keys) - {kid} == {} {
      assert ActiveKids(s.keys) <= {kid};
      SubsetSize(ActiveKids(s.keys), {kid});
    }
  }

  lemma {:induction false} SubsetSize<T>(a: set<T>, b: set<T>)
    requires a <= b
    ensures |a| <= |b|
  {
    assert b == a + (b - a);
  }

  lemma IntegrityWithTenants(s: State, tenants: map<Id, Tenant>)
    requires Integrity(s) && s.tenants.Keys <= tenants.Keys && ConfigUnique(tenants, s.clients, s.users)
    ensures Integrity(s.(tenants := tenants))
  {
  }

  lemma TenantsAfterCreate(s: State, id: Id, code: string, l: E.Lifetimes, ok: bool)
    requires Integrity(s) && LifetimesOk(s.tenants) && id !in s.tenants
    ensures
      var t := E.CreateTenant(s, id, code, l, ok).state;
      Integrity(t) && LifetimesOk(t.tenants)
  {
    hide ForeignKeys;
    var t := E.CreateTenant(s, id, code, l, ok).state;
    if t != s {
      LifetimeListCovers(l);
      assert ConfigUnique(t.tenants, s.clients, s.users);
      IntegrityWithTenants(s, t.tenants);
    }
  }

  lemma TenantsAfterUpdate(s: State, id: Id, l: E.Lifetimes, ok: bool)
    requires Integrity(s) && LifetimesOk(s.tenants)
    ensures
      var t := E.UpdateTenant(s, id, l, ok).state;
      Integrity(t) && LifetimesOk(t.tenants)
  {
    hide ForeignKeys;
    var t := E.UpdateTenant(s, id, l, ok).state;
    if t != s {
      LifetimeListCovers(l);
      assert ConfigUnique(t.tenants, s.clients, s.users);
      IntegrityWithTenants(s, t.tenants);
    }
  }

  lemma LifetimeListCovers(l: E.Lifetimes)
    requires E.LifetimesValid(E.LifetimeList(l))
    ensures l.session.Some? ==> l.session.value > 0
    ensures l.authCode.Some? ==> l.authCode.value > 0
    ensures l.accessToken.Some? ==> l.accessToken.value > 0
    ensures l.refreshToken.Some? ==> l.refreshToken.value > 0
    ensures l.idToken.Some? ==> l.idToken.value > 0
  {
    var list := E.LifetimeList(l);
    assert list[0] == l.session && list[1] == l.authCode && list[2] == l.accessToken;
    assert list[3] == l.refreshToken && list[4] == l.idToken;
  }

  lemma ClientsAfterSave(s: State, id: Id, c: Client)
    requires Invariant(s) && CanSaveClient(s, id, c)
    ensures
      var t := s.(clients := s.clients[id := c]);
      Integrity(t) && TenantsCohere(t.users, t.clients, t.sessions, t.codes)
  {
    hide RotationSound, LifetimesOk, KeysConsistent;
  }

  lemma UsersAfterSave(s: State, id: Id, u: User)
    requires Invariant(s) && CanSaveUser(s, id, u)
    ensures
      var t := s.(users := s.users[id := u]);
      Integrity(t) && TenantsCohere(t.users, t.clients, t.sessions, t.codes)
  {
    hide RotationSound, LifetimesOk, KeysConsistent;
  }

  // ---------- The invariant ----------

  lemma SettingKept(env: Env, s: State, e: Event)
    requires Invariant(s) && Enabled(env, s, e) && IsSetting(e)
    ensures Invariant(Step(env, s, e).state)
  {
    hide Invariant, Enabled, Step;
    if e.RotateKey? || e.DeactivateKey? {
      KeyEventKept(env, s, e);
    } else if e.CreateTenant? || e.UpdateTenant? {
      TenantEventKept(env, s, e);
    } else {
      OtherSettingKept(env, s, e);
    }
  }

  lemma KeyEventKept(env: Env, s: State, e: Event)
    requires Invariant(s) && Enabled(env, s, e) && (e.RotateKey? || e.DeactivateKey?)
    ensures Invariant(Step(env, s, e).state)
  {
    hide Invariant, ForeignKeys, CanCreateKey, CanSaveClient, CanSaveUser, E.IsFresh;
    InvariantHasForeignKeys(s);
    hide E.UserInfo, E.RotateKey, E.DeactivateKey, E.CreateTenant, E.UpdateTenant;
    if e.RotateKey? { KeysKept(s, e.newKid, e.newKey); } else { KeysKept(s, e.kid, 0); }
  }

  lemma TenantEventKept(env: Env, s: State, e: Event)
    requires Invariant(s) && Enabled(env, s, e) && (e.CreateTenant? || e.UpdateTenant?)
    ensures Invariant(Step(env, s, e).state)
  {
    hide Invariant, ForeignKeys, CanCreateKey, CanSaveClient, CanSaveUser, E.IsFresh;
    InvariantHasForeignKeys(s);
    hide E.UserInfo, E.RotateKey, E.DeactivateKey, E.CreateTenant, E.UpdateTenant;
    match e
    case CreateTenant(id, code, l, ok) => TenantsKept(s, id, code, l, ok);
    case UpdateTenant(id, l, ok) => TenantsKept(s, id, "", l, ok);
  }

  lemma OtherSettingKept(env: Env, s: State, e: Event)
    requires Invariant(s) && Enabled(env, s, e) && (e.Tick? || e.SaveClient? || e.SaveUser? || e.UserInfo?)
    ensures Invariant(Step(env, s, e).state)
  {
    hide Invariant, ForeignKeys, CanCreateKey, CanSaveClient, CanSaveUser, E.IsFresh;
    InvariantHasForeignKeys(s);
    hide E.UserInfo, E.RotateKey, E.DeactivateKey, E.CreateTenant, E.UpdateTenant;
    match e
    case Tick(to) => ClockKept(s, to);
    case SaveClient(id, c) => ClientKept(s, id, c);
    case SaveUser(id, u) => UserKept(s, id, u);
    case UserInfo(_) =>
  }

  lemma ClockKept(s: State, to: Time)
    requires Invariant(s)
    ensures Invariant(s.(now := to))
  {
    IntegrityOfTables(s, s.(now := to));
  }

  lemma ClientKept(s: State, id: Id, c: Client)
    requires Invariant(s) && CanSaveClient(s, id, c)
    ensures Invariant(s.(clients := s.clients[id := c]))
  {
    hide Integrity, TenantsCohere;
    ClientsAfterSave(s, id, c);
  }

  lemma UserKept(s: State, id: Id, u: User)
    requires Invariant(s) && CanSaveUser(s, id, u)
    ensures Invariant(s.(users := s.users[id := u]))
  {
    hide Integrity, TenantsCohere;
    UsersAfterSave(s, id, u);
  }

  lemma KeysKept(s: State, kid: string, id: Id)
    requires Invariant(s)
    ensures CanCreateKey(s, kid, id) ==> Invariant(E.RotateKey(s, kid, id).state)
    ensures Invariant(E.DeactivateKey(s, kid).state)
  {
    hide RotationSound, TenantsCohere, LifetimesOk, KeysConsistent, ActiveKids, Integrity, CanCreateKey, E.RotateKey, E.DeactivateKey;
    if CanCreateKey(s, kid, id) { KeysAfterRotation(s, kid, id); }
    KeysAfterDeactivation(s, kid);
    KeyStepFrame(s, kid, id);
  }

  lemma TenantsKept(s: State, id: Id, code: string, l: E.Lifetimes, ok: bool)
    requires Invariant(s)
    ensures id !in s.tenants ==> Invariant(E.CreateTenant(s, id, code, l, ok).state)
    ensures Invariant(E.UpdateTenant(s, id, l, ok).state)
  {
    hide RotationSound, TenantsCohere, LifetimesOk, KeysConsistent, ActiveKids, Integrity, E.CreateTenant, E.UpdateTenant;
    if id !in s.tenants { TenantsAfterCreate(s, id, code, l, ok); }
    TenantsAfterUpdate(s, id, l, ok);
    TenantStepFrame(s, id, code, l, ok);
  }

  lemma InvariantHasForeignKeys(s: State)
    requires Invariant(s)
    ensures ForeignKeys(s)
  {
    hide ForeignKeys;
  }

  lemma CoherenceKeptByEffect(env: Env, s: State, f: Effect, t: State)
    requires Integrity(s) && TenantsCohere(s.users, s.clients, s.sessions, s.codes)
    requires Did(env, s, f, t) && !f.Elsewhere?
    ensures TenantsCohere(t.users, t.clients, t.sessions, t.codes)
  {
    hide UniqueIndexes, E.RedeemCode, E.Rotate, E.IsFresh, ActiveKids, Paired;
    EffectKeepsSetting(env, s, f, t);
    match f
    case Redeemed(id, clientId, g) => RedeemedTables(env, s, id, clientId, g);
    case Rotated(id, clientId, scope, g) => RotatedTables(env, s, id, clientId, scope, g);
    case _ =>
  }

  /** The invariant holds initially ... */
  lemma InvariantInitially(s: State)
    requires Initial(s)
    ensures Invariant(s)
  {
  }

  /** ... and every step keeps it. */
  lemma InvariantKept(env: Env, s: State, e: Event)
    requires Invariant(s) && Enabled(env, s, e)
    ensures Invariant(Step(env, s, e).state)
  {
    hide UniqueIndexes, ParentsSound, PairsSound, TenantsCohere, LifetimesOk, KeysConsistent, Did, Enabled, Step;
    var f := StepHasEffect(env, s, e);
    var t := Step(env, s, e).state;
    if f.Elsewhere? {
      if t != s { SettingKept(env, s, e); }
    } else {
      EffectKeepsSetting(env, s, f, t);
      RotationKept(env, s, f, t);
      IntegrityKeptByEffect(env, s, f, t);
      CoherenceKeptByEffect(env, s, f, t);
    }
  }

  lemma {:induction false} InvariantAlways(env: Env, trace: seq<State>, events: seq<Event>, i: nat)
    requires IsContinuation(env, trace, events) && Invariant(trace[0]) && i < |trace|
    ensures Invariant(trace[i])
  {
    hide Invariant, Step;
    if i > 0 {
      InvariantAlways(env, trace, events, i - 1);
      assert Next(env, trace[i - 1], events[i - 1], trace[i]);
      InvariantKept(env, trace[i - 1], events[i - 1]);
    }
  }

  lemma RunIsContinuation(env: Env, trace: seq<State>, events: seq<Event>)
    requires IsRun(env, trace, events)
    ensures IsContinuation(env, trace, events) && Invariant(trace[0])
  {
    hide Invariant;
    InvariantInitially(trace[0]);
  }
}
