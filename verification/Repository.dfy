/**
 What each repository call does to the tables, as functions of the state: the finders, the inserts and
 the conditional updates. Class `Database` implements them; the endpoints are written in terms of them.
 */
module Repository {
  import opened Basics
  import opened Schema

  // ---------- Finders ----------

  ghost function FindTenantByCode(s: State, code: string): (r: Option<Id>)
    ensures r.Some? ==> r.value in s.tenants && s.tenants[r.value].code == code
    ensures r.None? ==> forall x | x in s.tenants :: s.tenants[x].code != code
  {
    if x :| x in s.tenants && s.tenants[x].code == code then Some(x) else None
  }

  ghost function FindClientByClientId(s: State, clientId: string): (r: Option<Id>)
    ensures r.Some? ==> r.value in s.clients && s.clients[r.value].clientId == clientId
    ensures r.None? ==> forall x | x in s.clients :: s.clients[x].clientId != clientId
  {
    if x :| x in s.clients && s.clients[x].clientId == clientId then Some(x) else None
  }

  ghost function FindUserByTenantAndLogin(s: State, tenantId: Id, loginId: string): (r: Option<Id>)
    ensures r.Some? ==>
      r.value in s.users && s.users[r.value].tenantId == tenantId && s.users[r.value].loginId == loginId
    ensures r.None? ==> forall x | x in s.users :: !(s.users[x].tenantId == tenantId && s.users[x].loginId == loginId)
  {
    if x :| x in s.users && s.users[x].tenantId == tenantId && s.users[x].loginId == loginId then Some(x) else None
  }

  ghost function FindByCode(codes: map<Id, AuthCode>, code: string): (r: Option<Id>)
    ensures r.Some? ==> r.value in codes && codes[r.value].code == code
    ensures r.None? ==> forall x | x in codes :: codes[x].code != code
  {
    if x :| x in codes && codes[x].code == code then Some(x) else None
  }

  ghost function FindByJti(accessTokens: Table<AccessToken>, jti: string): (r: Option<Id>)
    ensures r.Some? ==> r.value in accessTokens && accessTokens[r.value].row.jti == jti
    ensures r.None? ==> forall x | x in accessTokens :: accessTokens[x].row.jti != jti
  {
    if x :| x in accessTokens && accessTokens[x].row.jti == jti then Some(x) else None
  }

  ghost function FindByTokenHash(refreshTokens: Table<RefreshToken>, hash: string): (r: Option<Id>)
    ensures r.Some? ==> r.value in refreshTokens && refreshTokens[r.value].row.tokenHash == hash
    ensures r.None? ==> forall x | x in refreshTokens :: refreshTokens[x].row.tokenHash != hash
  {
    if x :| x in refreshTokens && refreshTokens[x].row.tokenHash == hash then Some(x) else None
  }

  /** `kid` is the first row of `WHERE active ORDER BY created_at DESC, id`. */
  ghost predicate IsSigning(keys: map<string, SignKey>, kid: string) {
    NewestAmong(keys, ActiveKids(keys), kid)
  }

  function ActiveKids(keys: map<string, SignKey>): set<string> {
    set k | k in keys && keys[k].active
  }

  /** The key new tokens are signed with: the newest active one. */
  ghost function FindActive(keys: map<string, SignKey>): (r: Option<string>)
    ensures r.Some? <==> ActiveKids(keys) != {}
    ensures r.Some? ==> IsSigning(keys, r.value)
  {
    if ActiveKids(keys) == {} then None
    else
      NewestExists(keys, ActiveKids(keys));
      var kid :| NewestAmong(keys, ActiveKids(keys), kid);
      Some(kid)
  }

  /** `ORDER BY created_at DESC, id`: row `a` comes no later than row `b`. */
  predicate SortsFirst(a: SignKey, b: SignKey) {
    b.createdAt < a.createdAt || (b.createdAt == a.createdAt && a.id <= b.id)
  }

  ghost predicate NewestAmong(keys: map<string, SignKey>, kids: set<string>, kid: string) {
    && kid in kids && kids <= keys.Keys
    && forall k | k in kids :: SortsFirst(keys[kid], keys[k])
  }

  lemma {:induction false} NewestExists(keys: map<string, SignKey>, kids: set<string>)
    requires kids <= keys.Keys && kids != {}
    ensures exists kid :: NewestAmong(keys, kids, kid)
    decreases |kids|
  {
    var k :| k in kids;
    var rest := kids - {k};
    if rest == {} {
      assert kids == {k};
      assert NewestAmong(keys, kids, k);
    } else {
      NewestExists(keys, rest);
      var m :| NewestAmong(keys, rest, m);
      var best := if SortsFirst(keys[k], keys[m]) then k else m;
      forall x | x in kids
        ensures SortsFirst(keys[best], keys[x])
      {
        assert x == k || (x in rest && SortsFirst(keys[m], keys[x]));
      }
      assert NewestAmong(keys, kids, best);
    }
  }

  // ---------- Which rows a bulk update is about ----------

  function SessionsOfTenant(s: State, tenantId: Id): set<Id> {
    set x | x in s.sessions && s.sessions[x].row.tenantId == tenantId
  }

  function SessionsOfUser(s: State, userId: Id): set<Id> {
    set x | x in s.sessions && s.sessions[x].row.userId == userId
  }

  function AccessTokensOf(s: State, sessionIds: set<Id>): set<Id> {
    set x | x in s.accessTokens && s.accessTokens[x].row.sessionId in sessionIds
  }

  function RefreshTokensOf(s: State, sessionIds: set<Id>): set<Id> {
    set x | x in s.refreshTokens && s.refreshTokens[x].row.sessionId in sessionIds
  }

  // ---------- Writes ----------

  function RevokeSessions(s: State, which: set<Id>): State {
    s.(sessions := RevokeIn(s.sessions, which, s.now))
  }

  function RevokeAccessTokens(s: State, which: set<Id>): State {
    s.(accessTokens := RevokeIn(s.accessTokens, which, s.now))
  }

  function RevokeRefreshTokens(s: State, which: set<Id>): State {
    s.(refreshTokens := RevokeIn(s.refreshTokens, which, s.now))
  }

  function MarkReuseDetected(s: State, id: Id): State {
    s.(reuseDetectedAt := s.reuseDetectedAt[id := s.now])
  }

  /** Unconditional: a second call overwrites `used_at`. */
  function MarkAsUsed(s: State, id: Id): State
    requires id in s.codes
  {
    s.(codes := s.codes[id := s.codes[id].(usedAt := Some(s.now))])
  }

  function CreateSession(s: State, id: Id, row: Session): State {
    s.(sessions := s.sessions[id := Live(row)])
  }

  function CreateCode(s: State, id: Id, row: AuthCode): State {
    s.(codes := s.codes[id := row])
  }

  function CreateAccessToken(s: State, id: Id, row: AccessToken): State {
    s.(accessTokens := s.accessTokens[id := Live(row)])
  }

  function CreateRefreshToken(s: State, id: Id, row: RefreshToken): State {
    s.(refreshTokens := s.refreshTokens[id := Live(row)])
  }

  function CreateIdToken(s: State, id: Id, row: IdToken): State {
    s.(idTokens := s.idTokens[id := row])
  }

  function Sign(s: State, text: string, jwt: Jwt): State {
    s.(signed := s.signed[text := jwt])
  }

  function DeactivateIn(keys: map<string, SignKey>, kids: set<string>, now: Time): (r: map<string, SignKey>)
    ensures r.Keys == keys.Keys
  {
    map k | k in keys :: if k in kids then keys[k].(active := false, rotatedAt := Some(now)) else keys[k]
  }

  function DeactivateKeys(s: State, kids: set<string>): State {
    s.(keys := DeactivateIn(s.keys, kids, s.now))
  }

  function CreateKey(s: State, kid: string, id: Id): State {
    s.(keys := s.keys[kid := SignKey(id, s.now, true, None)])
  }

  // ---------- Inserts the database accepts ----------

  ghost predicate CanCreateSession(s: State, id: Id, row: Session) {
    id !in s.sessions && row.userId in s.users && row.tenantId in s.tenants
  }

  ghost predicate CanCreateCode(s: State, id: Id, row: AuthCode) {
    && id !in s.codes && row.sessionId in s.sessions && row.clientId in s.clients
    && (forall x | x in s.codes :: s.codes[x].code != row.code)
  }

  ghost predicate CanCreateAccessToken(s: State, id: Id, row: AccessToken) {
    && id !in s.accessTokens && row.sessionId in s.sessions && row.clientId in s.clients
    && (forall x | x in s.accessTokens :: s.accessTokens[x].row.jti != row.jti)
  }

  ghost predicate CanCreateRefreshToken(s: State, id: Id, row: RefreshToken) {
    && id !in s.refreshTokens && row.sessionId in s.sessions && row.accessTokenId in s.accessTokens
    && (row.parentId.Some? ==> row.parentId.value in s.refreshTokens)
    && (forall x | x in s.refreshTokens :: s.refreshTokens[x].row.tokenHash != row.tokenHash)
  }

  ghost predicate CanCreateIdToken(s: State, id: Id, row: IdToken) {
    id !in s.idTokens && row.sessionId in s.sessions && row.clientId in s.clients
  }

  ghost predicate CanCreateKey(s: State, kid: string, id: Id) {
    kid !in s.keys && forall k | k in s.keys :: s.keys[k].id != id
  }

  // ---------- Every write keeps the database's own guarantees ----------

  lemma RevokeSessionsKeepsIntegrity(s: State, which: set<Id>)
    requires Integrity(s)
    ensures Integrity(RevokeSessions(s, which))
  {
  }

  lemma RevokeAccessTokensKeepsIntegrity(s: State, which: set<Id>)
    requires Integrity(s)
    ensures Integrity(RevokeAccessTokens(s, which))
  {
  }

  lemma RevokeRefreshTokensKeepsIntegrity(s: State, which: set<Id>)
    requires Integrity(s)
    ensures Integrity(RevokeRefreshTokens(s, which))
  {
  }

  lemma MarkAsUsedKeepsIntegrity(s: State, id: Id)
    requires Integrity(s) && id in s.codes
    ensures Integrity(MarkAsUsed(s, id))
  {
  }

  lemma CreateSessionKeepsIntegrity(s: State, id: Id, row: Session)
    requires Integrity(s) && CanCreateSession(s, id, row)
    ensures Integrity(CreateSession(s, id, row))
  {
  }

  lemma CreateCodeKeepsIntegrity(s: State, id: Id, row: AuthCode)
    requires Integrity(s) && CanCreateCode(s, id, row)
    ensures Integrity(CreateCode(s, id, row))
  {
  }

  lemma CreateAccessTokenKeepsIntegrity(s: State, id: Id, row: AccessToken)
    requires Integrity(s) && CanCreateAccessToken(s, id, row)
    ensures Integrity(CreateAccessToken(s, id, row))
  {
  }

  lemma CreateRefreshTokenKeepsIntegrity(s: State, id: Id, row: RefreshToken)
    requires Integrity(s) && CanCreateRefreshToken(s, id, row)
    ensures Integrity(CreateRefreshToken(s, id, row))
  {
  }

  lemma CreateIdTokenKeepsIntegrity(s: State, id: Id, row: IdToken)
    requires Integrity(s) && CanCreateIdToken(s, id, row)
    ensures Integrity(CreateIdToken(s, id, row))
  {
  }

  lemma KeyWritesKeepIntegrity(s: State, kid: string, id: Id, kids: set<string>)
    requires Integrity(s)
    ensures Integrity(DeactivateKeys(s, kids))
    ensures CanCreateKey(s, kid, id) ==> Integrity(CreateKey(s, kid, id))
  {
    hide PeopleLinked, SessionsLinked, CodesLinked, AccessTokensLinked, IdTokensLinked, RefreshTokensLinked;
    hide ConfigUnique, CodesUnique, AccessTokensUnique, RefreshTokensUnique, KeysUnique, CanCreateKey;
    KeyWritesKeepUnique(s, kid, id, kids);
  }

  lemma KeyWritesKeepUnique(s: State, kid: string, id: Id, kids: set<string>)
    requires KeysUnique(s.keys)
    ensures KeysUnique(DeactivateKeys(s, kids).keys)
    ensures CanCreateKey(s, kid, id) ==> KeysUnique(CreateKey(s, kid, id).keys)
  {
  }
}
