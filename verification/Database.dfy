/**
 The repositories, as one object over all tables. Rows are never deleted. Every method is one repository
 call; what it does to the tables is given by the function of the same purpose in `Repository`.
 */
module Store {
  import opened Basics
  import opened Schema
  import R = Repository

  class Database {
    var now: Time
    var tenants: map<Id, Tenant>
    var users: map<Id, User>
    var clients: map<Id, Client>
    var sessions: Table<Session>
    var codes: map<Id, AuthCode>
    var accessTokens: Table<AccessToken>
    var refreshTokens: Table<RefreshToken>
    var reuseDetectedAt: map<Id, Time>
    var idTokens: map<Id, IdToken>
    var keys: map<string, SignKey>
    /** Stands for the signature check: every string signed so far, with its contents. */
    var signed: map<string, Jwt>

    ghost function Snap(): State
      reads this
    {
      State(now, tenants, users, clients, sessions, codes, accessTokens, refreshTokens, reuseDetectedAt, idTokens, keys, signed)
    }

    /** Unique indexes and foreign keys hold. */
    ghost predicate Valid()
      reads this
    {
      Integrity(Snap())
    }

    constructor (s: State)
      ensures Snap() == s
    {
      now, tenants, users, clients, sessions, codes := s.now, s.tenants, s.users, s.clients, s.sessions, s.codes;
      accessTokens, refreshTokens, reuseDetectedAt, idTokens := s.accessTokens, s.refreshTokens, s.reuseDetectedAt, s.idTokens;
      keys, signed := s.keys, s.signed;
    }

    // ---------- Finders ----------

    method FindTenantByCode(code: string) returns (r: Option<Id>)
      requires Valid()
      ensures r == R.FindTenantByCode(Snap(), code)
    {
      hide ForeignKeys;
      r := SelectOne(tenants, (t: Tenant) => t.code == code);
    }

    method FindUserByTenantAndLoginID(tenantId: Id, loginId: string) returns (r: Option<Id>)
      requires Valid()
      ensures r == R.FindUserByTenantAndLogin(Snap(), tenantId, loginId)
    {
      hide ForeignKeys;
      r := SelectOne(users, (u: User) => u.tenantId == tenantId && u.loginId == loginId);
    }

    method FindByClientID(clientId: string) returns (r: Option<Id>)
      requires Valid()
      ensures r == R.FindClientByClientId(Snap(), clientId)
    {
      hide ForeignKeys;
      r := SelectOne(clients, (c: Client) => c.clientId == clientId);
    }

    method FindByCode(code: string) returns (r: Option<Id>)
      requires Valid()
      ensures r == R.FindByCode(codes, code)
    {
      hide ForeignKeys;
      r := SelectOne(codes, (c: AuthCode) => c.code == code);
    }

    method FindByJTI(jti: string) returns (r: Option<Id>)
      requires Valid()
      ensures r == R.FindByJti(accessTokens, jti)
    {
      hide ForeignKeys;
      r := SelectOne(accessTokens, (t: Revocable<AccessToken>) => t.row.jti == jti);
    }

    method FindByTokenHash(hash: string) returns (r: Option<Id>)
      requires Valid()
      ensures r == R.FindByTokenHash(refreshTokens, hash)
    {
      hide ForeignKeys;
      r := SelectOne(refreshTokens, (t: Revocable<RefreshToken>) => t.row.tokenHash == hash);
    }

    // ---------- Sessions ----------

    method CreateSession(id: Id, row: Session)
      requires Valid() && R.CanCreateSession(Snap(), id, row)
      modifies this`sessions
      ensures Valid() && Snap() == R.CreateSession(old(Snap()), id, row)
    {
      R.CreateSessionKeepsIntegrity(Snap(), id, row);
      sessions := sessions[id := Live(row)];
    }

    method RevokeAllSessions() returns (rowsAffected: nat)
      requires Valid()
      modifies this`sessions
      ensures Valid() && Snap() == R.RevokeSessions(old(Snap()), old(sessions.Keys))
      ensures rowsAffected == |LiveIn(old(sessions), old(sessions.Keys))|
    {
      hide Integrity;
      R.RevokeSessionsKeepsIntegrity(Snap(), sessions.Keys);
      var updated;
      updated, rowsAffected := UpdateRevokedAt(sessions, (s: Session) => true, now, sessions.Keys);
      sessions := updated;
    }

    method RevokeSessionsByTenantID(tenantId: Id) returns (rowsAffected: nat)
      requires Valid()
      modifies this`sessions
      ensures Valid() && Snap() == R.RevokeSessions(old(Snap()), R.SessionsOfTenant(old(Snap()), tenantId))
      ensures rowsAffected == |LiveIn(old(sessions), R.SessionsOfTenant(old(Snap()), tenantId))|
    {
      hide Integrity;
      R.RevokeSessionsKeepsIntegrity(Snap(), R.SessionsOfTenant(Snap(), tenantId));
      var updated;
      updated, rowsAffected := UpdateRevokedAt(sessions, (s: Session) => s.tenantId == tenantId, now, R.SessionsOfTenant(Snap(), tenantId));
      sessions := updated;
    }

    method RevokeSessionsByUserID(userId: Id) returns (rowsAffected: nat)
      requires Valid()
      modifies this`sessions
      ensures Valid() && Snap() == R.RevokeSessions(old(Snap()), R.SessionsOfUser(old(Snap()), userId))
      ensures rowsAffected == |LiveIn(old(sessions), R.SessionsOfUser(old(Snap()), userId))|
    {
      hide Integrity;
      R.RevokeSessionsKeepsIntegrity(Snap(), R.SessionsOfUser(Snap(), userId));
      var updated;
      updated, rowsAffected := UpdateRevokedAt(sessions, (s: Session) => s.userId == userId, now, R.SessionsOfUser(Snap(), userId));
      sessions := updated;
    }

    // ---------- Authorization codes ----------

    method CreateCode(id: Id, row: AuthCode)
      requires Valid() && R.CanCreateCode(Snap(), id, row)
      modifies this`codes
      ensures Valid() && Snap() == R.CreateCode(old(Snap()), id, row)
    {
      R.CreateCodeKeepsIntegrity(Snap(), id, row);
      codes := codes[id := row];
    }

    method MarkAsUsed(id: Id)
      requires Valid() && id in codes
      modifies this`codes
      ensures Valid() && Snap() == R.MarkAsUsed(old(Snap()), id)
    {
      R.MarkAsUsedKeepsIntegrity(Snap(), id);
      codes := codes[id := codes[id].(usedAt := Some(now))];
    }

    // ---------- Access tokens ----------

    method CreateAccessToken(id: Id, row: AccessToken)
      requires Valid() && R.CanCreateAccessToken(Snap(), id, row)
      modifies this`accessTokens
      ensures Valid() && Snap() == R.CreateAccessToken(old(Snap()), id, row)
    {
      R.CreateAccessTokenKeepsIntegrity(Snap(), id, row);
      accessTokens := accessTokens[id := Live(row)];
    }

    method RevokeAccessToken(id: Id)
      requires Valid()
      modifies this`accessTokens
      ensures Valid() && Snap() == R.RevokeAccessTokens(old(Snap()), {id})
    {
      hide Integrity;
      R.RevokeAccessTokensKeepsIntegrity(Snap(), {id});
      ghost var before := accessTokens;
      if id in accessTokens && accessTokens[id].Live? {
        accessTokens := accessTokens[id := Revoked(accessTokens[id].row, now)];
      }
      assert accessTokens == RevokeIn(before, {id}, now);
    }

    method RevokeAllAccessTokens() returns (rowsAffected: nat)
      requires Valid()
      modifies this`accessTokens
      ensures Valid() && Snap() == R.RevokeAccessTokens(old(Snap()), old(accessTokens.Keys))
      ensures rowsAffected == |LiveIn(old(accessTokens), old(accessTokens.Keys))|
    {
      hide Integrity;
      R.RevokeAccessTokensKeepsIntegrity(Snap(), accessTokens.Keys);
      var updated;
      updated, rowsAffected := UpdateRevokedAt(accessTokens, (t: AccessToken) => true, now, accessTokens.Keys);
      accessTokens := updated;
    }

    /** UPDATE access_tokens ... WHERE session_id IN (the chosen sessions). */
    method RevokeAccessTokensOf(chosen: set<Id>) returns (rowsAffected: nat)
      requires Valid()
      modifies this`accessTokens
      ensures Valid() && Snap() == R.RevokeAccessTokens(old(Snap()), R.AccessTokensOf(old(Snap()), chosen))
      ensures rowsAffected == |LiveIn(old(accessTokens), R.AccessTokensOf(old(Snap()), chosen))|
    {
      hide Integrity;
      R.RevokeAccessTokensKeepsIntegrity(Snap(), R.AccessTokensOf(Snap(), chosen));
      var updated;
      updated, rowsAffected := UpdateRevokedAt(accessTokens, (t: AccessToken) => t.sessionId in chosen, now, R.AccessTokensOf(Snap(), chosen));
      accessTokens := updated;
    }

    // ---------- Refresh tokens ----------

    method CreateRefreshToken(id: Id, row: RefreshToken)
      requires Valid() && R.CanCreateRefreshToken(Snap(), id, row)
      modifies this`refreshTokens
      ensures Valid() && Snap() == R.CreateRefreshToken(old(Snap()), id, row)
    {
      R.CreateRefreshTokenKeepsIntegrity(Snap(), id, row);
      refreshTokens := refreshTokens[id := Live(row)];
    }

    method RevokeRefreshToken(id: Id)
      requires Valid()
      modifies this`refreshTokens
      ensures Valid() && Snap() == R.RevokeRefreshTokens(old(Snap()), {id})
    {
      hide Integrity;
      R.RevokeRefreshTokensKeepsIntegrity(Snap(), {id});
      ghost var before := refreshTokens;
      if id in refreshTokens && refreshTokens[id].Live? {
        refreshTokens := refreshTokens[id := Revoked(refreshTokens[id].row, now)];
      }
      assert refreshTokens == RevokeIn(before, {id}, now);
    }

    method RevokeAllRefreshTokens() returns (rowsAffected: nat)
      requires Valid()
      modifies this`refreshTokens
      ensures Valid() && Snap() == R.RevokeRefreshTokens(old(Snap()), old(refreshTokens.Keys))
      ensures rowsAffected == |LiveIn(old(refreshTokens), old(refreshTokens.Keys))|
    {
      hide Integrity;
      R.RevokeRefreshTokensKeepsIntegrity(Snap(), refreshTokens.Keys);
      var updated;
      updated, rowsAffected := UpdateRevokedAt(refreshTokens, (t: RefreshToken) => true, now, refreshTokens.Keys);
      refreshTokens := updated;
    }

    /** UPDATE refresh_tokens ... WHERE session_id IN (the chosen sessions). */
    method RevokeRefreshTokensOf(chosen: set<Id>) returns (rowsAffected: nat)
      requires Valid()
      modifies this`refreshTokens
      ensures Valid() && Snap() == R.RevokeRefreshTokens(old(Snap()), R.RefreshTokensOf(old(Snap()), chosen))
      ensures rowsAffected == |LiveIn(old(refreshTokens), R.RefreshTokensOf(old(Snap()), chosen))|
    {
      hide Integrity;
      R.RevokeRefreshTokensKeepsIntegrity(Snap(), R.RefreshTokensOf(Snap(), chosen));
      var updated;
      updated, rowsAffected := UpdateRevokedAt(refreshTokens, (t: RefreshToken) => t.sessionId in chosen, now, R.RefreshTokensOf(Snap(), chosen));
      refreshTokens := updated;
    }

    /** Unconditional: a later detection overwrites the time of an earlier one. */
    method MarkReuseDetected(id: Id)
      requires Valid()
      modifies this`reuseDetectedAt
      ensures Valid() && Snap() == R.MarkReuseDetected(old(Snap()), id)
    {
      reuseDetectedAt := reuseDetectedAt[id := now];
    }

    // ---------- ID tokens ----------

    method CreateIdToken(id: Id, row: IdToken)
      requires Valid() && R.CanCreateIdToken(Snap(), id, row)
      modifies this`idTokens
      ensures Valid() && Snap() == R.CreateIdToken(old(Snap()), id, row)
    {
      R.CreateIdTokenKeepsIntegrity(Snap(), id, row);
      idTokens := idTokens[id := row];
    }

    // ---------- Signing keys ----------

    method CreateKey(kid: string, id: Id)
      requires Valid() && R.CanCreateKey(Snap(), kid, id)
      modifies this`keys
      ensures Valid() && Snap() == R.CreateKey(old(Snap()), kid, id)
    {
      R.KeyWritesKeepIntegrity(Snap(), kid, id, {});
      keys := keys[kid := SignKey(id, now, true, None)];
    }

    /** The first of `WHERE active ORDER BY created_at DESC, id` among the given kids. */
    method FirstOf(kids: set<string>) returns (best: string)
      requires kids != {} && kids <= keys.Keys
      ensures R.NewestAmong(keys, kids, best)
    {
      best :| best in kids;
      var todo := kids - {best};
      while todo != {}
        invariant todo <= kids && best in kids && best !in todo
        invariant forall k | k in kids && k !in todo :: R.SortsFirst(keys[best], keys[k])
        decreases todo
      {
        var k :| k in todo;
        todo := todo - {k};
        if R.SortsFirst(keys[k], keys[best]) {
          best := k;
        }
      }
    }

    method FindActive() returns (r: Option<string>)
      requires Valid()
      ensures r == R.FindActive(keys)
    {
      hide ForeignKeys;
      var active := R.ActiveKids(keys);
      if active == {} {
        r := None;
      } else {
        var best := FirstOf(active);
        r := Some(best);
      }
    }

    /** All active keys, newest first. */
    method FindAllActive() returns (kids: seq<string>)
      ensures (set k | k in kids) == R.ActiveKids(keys) && |kids| == |R.ActiveKids(keys)|
      ensures forall i, j | 0 <= i < j < |kids| :: kids[i] in keys && kids[j] in keys && R.SortsFirst(keys[kids[i]], keys[kids[j]])
    {
      ghost var active := R.ActiveKids(keys);
      var todo := R.ActiveKids(keys);
      kids := [];
      while todo != {}
        invariant todo <= active
        invariant forall k :: k in kids <==> k in active - todo
        invariant |kids| + |todo| == |active|
        invariant forall i | 0 <= i < |kids| :: kids[i] in keys
        invariant forall i, j | 0 <= i < j < |kids| :: R.SortsFirst(keys[kids[i]], keys[kids[j]])
        invariant forall i, k | 0 <= i < |kids| && k in todo :: R.SortsFirst(keys[kids[i]], keys[k])
        decreases todo
      {
        var best := FirstOf(todo);
        todo, kids := todo - {best}, kids + [best];
      }
    }

    method Deactivate(kid: string)
      requires Valid()
      modifies this`keys
      ensures Valid() && Snap() == R.DeactivateKeys(old(Snap()), {kid})
    {
      hide Integrity;
      R.KeyWritesKeepIntegrity(Snap(), kid, 0, {kid});
      ghost var before := keys;
      if kid in keys {
        keys := keys[kid := keys[kid].(active := false, rotatedAt := Some(now))];
      }
      assert keys == R.DeactivateIn(before, {kid}, now);
    }

    method DeactivateAllActive()
      requires Valid()
      modifies this`keys
      ensures Valid() && Snap() == R.DeactivateKeys(old(Snap()), R.ActiveKids(old(keys)))
    {
      hide Integrity;
      R.KeyWritesKeepIntegrity(Snap(), "", 0, R.ActiveKids(keys));
      ghost var before := keys;
      ghost var active := R.ActiveKids(keys);
      var todo := keys.Keys;
      while todo != {}
        invariant todo <= before.Keys && keys.Keys == before.Keys
        invariant forall k | k in before :: keys[k] == if k in active && k !in todo then before[k].(active := false, rotatedAt := Some(now)) else before[k]
        decreases todo
      {
        var k :| k in todo;
        todo := todo - {k};
        if keys[k].active {
          keys := keys[k := keys[k].(active := false, rotatedAt := Some(now))];
        }
      }
      assert keys == R.DeactivateIn(before, active, now);
    }

    // ---------- Tenants ----------

    method SaveTenant(id: Id, row: Tenant)
      requires Valid()
      requires id in tenants ==> tenants[id].code == row.code
      requires id !in tenants ==> forall x | x in tenants :: tenants[x].code != row.code
      modifies this`tenants
      ensures Valid() && Snap() == old(Snap()).(tenants := old(tenants)[id := row])
    {
      SaveTenantKeepsIntegrity(Snap(), id, row);
      tenants := tenants[id := row];
    }
  }

  lemma SaveTenantKeepsIntegrity(s: State, id: Id, row: Tenant)
    requires Integrity(s)
    requires id in s.tenants ==> s.tenants[id].code == row.code
    requires id !in s.tenants ==> forall x | x in s.tenants :: s.tenants[x].code != row.code
    ensures Integrity(s.(tenants := s.tenants[id := row]))
  {
  }
}
