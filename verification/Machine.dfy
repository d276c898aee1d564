/**
 The provider as a state machine: requests are served one at a time, the clock moves between requests, and
 administrators edit tenants, clients and users. A run is any finite sequence of such events.
 */
module Machine {
  import opened Basics
  import opened Schema
  import opened Repository
  import E = Endpoints

  datatype Event =
    | Tick(to: Time)
    | Login(tenantCode: string, loginId: string, password: string, newSession: Id)
    | Authorize(authorize: E.AuthorizeRequest, newCode: Id, code: string)
    | ExchangeCode(exchange: E.CodeRequest, generated: E.Generated)
    | Refresh(refresh: E.RefreshRequest, generated: E.Generated)
    | Revoke(revoke: E.RevokeRequest)
    | UserInfo(token: string)
    | RevokeAll
    | RevokeTenant(tenantId: Id)
    | RevokeUser(userId: Id)
    | RotateKey(newKid: string, newKey: Id)
    | DeactivateKey(kid: string)
    | CreateTenant(newTenant: Id, tenantCode: string, lifetimes: E.Lifetimes, wellFormed: bool)
    | UpdateTenant(tenantId: Id, lifetimes: E.Lifetimes, wellFormed: bool)
    | SaveClient(clientId: Id, client: Client)
    | SaveUser(userId: Id, user: User)

  /** Client administration never moves a client to another tenant, renames it or re-enables it. */
  ghost predicate CanSaveClient(s: State, id: Id, c: Client) {
    && c.tenantId in s.tenants
    && (id in s.clients ==>
          && c.tenantId == s.clients[id].tenantId
          && c.clientId == s.clients[id].clientId
          && (c.IsActive() ==> s.clients[id].IsActive()))
    && (forall x {:trigger s.clients[x].clientId} | x in s.clients && x != id :: s.clients[x].clientId != c.clientId)
  }

  ghost predicate CanSaveUser(s: State, id: Id, u: User) {
    && u.tenantId in s.tenants
    && (id in s.users ==> u.tenantId == s.users[id].tenantId)
    && (forall x {:trigger s.users[x].loginId} | x in s.users && x != id ::
          !(s.users[x].tenantId == u.tenantId && s.users[x].loginId == u.loginId))
  }

  /** The clock does not go back, generated values are new, and the database accepts the administrators' rows. */
  ghost predicate Enabled(env: Env, s: State, e: Event) {
    match e
    case Tick(to) => s.now <= to
    case Login(_, _, _, id) => id !in s.sessions
    case Authorize(_, id, code) =>
      id !in s.codes && forall x {:trigger s.codes[x].code} | x in s.codes :: s.codes[x].code != code
    case ExchangeCode(_, g) => E.IsFresh(env, s, g)
    case Refresh(_, g) => E.IsFresh(env, s, g)
    case RotateKey(kid, id) => CanCreateKey(s, kid, id)
    case CreateTenant(id, _, _, _) => id !in s.tenants
    case SaveClient(id, c) => CanSaveClient(s, id, c)
    case SaveUser(id, u) => CanSaveUser(s, id, u)
    case _ => true
  }

  ghost function Step(env: Env, s: State, e: Event): E.Outcome
    requires ForeignKeys(s)
  {
    match e
    case Tick(to) => E.Outcome(s.(now := to), E.NoContent)
    case Login(tenantCode, loginId, password, id) => E.Login(env, s, tenantCode, loginId, password, id)
    case Authorize(r, id, code) => E.Authorize(s, r, id, code)
    case ExchangeCode(r, g) => E.GrantCode(env, s, r, g)
    case Refresh(r, g) => E.GrantRefresh(env, s, r, g)
    case Revoke(r) => E.Revoke(env, s, r)
    case UserInfo(token) => E.Outcome(s, E.UserInfo(s, token))
    case RevokeAll => E.RevokeAll(s)
    case RevokeTenant(id) => E.RevokeTenant(s, id)
    case RevokeUser(id) => E.RevokeUser(s, id)
    case RotateKey(kid, id) => E.RotateKey(s, kid, id)
    case DeactivateKey(kid) => E.DeactivateKey(s, kid)
    case CreateTenant(id, code, l, ok) => E.CreateTenant(s, id, code, l, ok)
    case UpdateTenant(id, l, ok) => E.UpdateTenant(s, id, l, ok)
    case SaveClient(id, c) => E.Outcome(s.(clients := s.clients[id := c]), E.NoContent)
    case SaveUser(id, u) => E.Outcome(s.(users := s.users[id := u]), E.NoContent)
  }

  /** One step of a run. */
  ghost predicate Next(env: Env, s: State, e: Event, t: State) {
    ForeignKeys(s) && Enabled(env, s, e) && t == Step(env, s, e).state
  }

  /** The provider after startup on a database with tenants, clients and users but no sessions or tokens yet. */
  ghost predicate Initial(s: State) {
    && Integrity(s)
    && s.sessions == map[] && s.codes == map[] && s.accessTokens == map[] && s.refreshTokens == map[]
    && s.reuseDetectedAt == map[] && s.idTokens == map[] && s.signed == map[]
    && (forall t | t in s.tenants :: LifetimesPositive(s.tenants[t]))
    && KeysConsistent(s.keys)
    && ActiveKids(s.keys) != {}
  }

  predicate LifetimesPositive(t: Tenant) {
    && t.sessionLifetime > 0 && t.authCodeLifetime > 0 && t.accessTokenLifetime > 0
    && t.refreshTokenLifetime > 0 && t.idTokenLifetime > 0
  }

  /** `active` says the same as `rotated_at IS NULL`. */
  ghost predicate KeysConsistent(keys: map<string, SignKey>) {
    forall k | k in keys :: keys[k].active <==> keys[k].rotatedAt.None?
  }

  /** A finite run: `trace[i + 1]` is the state after `events[i]`. */
  ghost predicate IsRun(env: Env, trace: seq<State>, events: seq<Event>) {
    && |trace| == |events| + 1
    && Initial(trace[0])
    && forall i | 0 <= i < |events| :: Next(env, trace[i], events[i], trace[i + 1])
  }

  /** The same from any state. */
  ghost predicate IsContinuation(env: Env, trace: seq<State>, events: seq<Event>) {
    && |trace| == |events| + 1
    && forall i | 0 <= i < |events| :: Next(env, trace[i], events[i], trace[i + 1])
  }
}
