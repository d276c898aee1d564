/** How long the access tokens of a tenant's sessions can outlive them, whatever is rotated and however lifetimes are edited. */
module Expiry {
  import opened Basics
  import opened Schema
  import opened Repository
  import opened Machine
  import opened Effects
  import opened Invariants
  import E = Endpoints

  /** While the tenant is there, `a` and `t` bound its code and access-token lifetimes, in seconds. */
  ghost predicate LifetimesWithin(tenants: map<Id, Tenant>, tid: Id, a: int, t: int) {
    tid in tenants ==> tenants[tid].authCodeLifetime <= a && tenants[tid].accessTokenLifetime <= t
  }

  /** The session belongs to the tenant. */
  ghost predicate Belongs(sessions: Table<Session>, sid: Id, tid: Id) {
    sid in sessions && sessions[sid].row.tenantId == tid
  }

  ghost predicate CodesBounded(codes: map<Id, AuthCode>, sessions: Table<Session>, tid: Id, a: int) {
    forall x {:trigger codes[x].sessionId} | x in codes && Belongs(sessions, codes[x].sessionId, tid) ::
      codes[x].expiresAt < sessions[codes[x].sessionId].row.expiresAt + a * SECOND
  }

  ghost predicate AccessBounded(accessTokens: Table<AccessToken>, sessions: Table<Session>, tid: Id, a: int, t: int) {
    forall x {:trigger accessTokens[x].row.sessionId}
      | x in accessTokens && Belongs(sessions, accessTokens[x].row.sessionId, tid) ::
      accessTokens[x].row.expiresAt < sessions[accessTokens[x].row.sessionId].row.expiresAt + (a + t) * SECOND
  }

  ghost predicate Bounded(s: State, tid: Id, a: int, t: int) {
    CodesBounded(s.codes, s.sessions, tid, a) && AccessBounded(s.accessTokens, s.sessions, tid, a, t)
  }

  lemma BoundedByRedeem(env: Env, s: State, id: Id, clientId: Id, g: E.Generated, tid: Id, a: int, t: int)
    requires ForeignKeys(s) && id in s.codes && clientId in s.clients
    requires Did(env, s, Redeemed(id, clientId, g), E.RedeemCode(env, s, id, clientId, g).state)
    requires Bounded(s, tid, a, t) && LifetimesWithin(s.tenants, tid, a, t)
    ensures Bounded(E.RedeemCode(env, s, id, clientId, g).state, tid, a, t)
  {
    hide E.RedeemCode, E.IsFresh, ActiveKids;
    RedeemedTables(env, s, id, clientId, g);
    var code := s.codes[id];
    var tenant := s.tenants[s.sessions[code.sessionId].row.tenantId];
    assert s.now <= code.expiresAt;
    if s.sessions[code.sessionId].row.tenantId == tid {
      assert tenant.accessTokenLifetime * SECOND <= t * SECOND;
    }
  }

  lemma BoundedByRotate(env: Env, s: State, id: Id, clientId: Id, scope: string, g: E.Generated, tid: Id, a: int, t: int)
    requires ForeignKeys(s) && LifetimesOk(s.tenants) && id in s.refreshTokens && clientId in s.clients
    requires Did(env, s, Rotated(id, clientId, scope, g), E.Rotate(env, s, id, clientId, scope, g).state)
    requires Bounded(s, tid, a, t) && LifetimesWithin(s.tenants, tid, a, t)
    ensures Bounded(E.Rotate(env, s, id, clientId, scope, g).state, tid, a, t)
  {
    hide E.Rotate, E.IsFresh, ActiveKids;
    RotatedTables(env, s, id, clientId, scope, g);
    var sid := s.refreshTokens[id].row.sessionId;
    var tenant := s.tenants[s.sessions[sid].row.tenantId];
    if s.sessions[sid].row.tenantId == tid {
      assert LifetimesPositive(tenant) && 0 < a;
      assert tenant.accessTokenLifetime * SECOND <= t * SECOND < (a + t) * SECOND;
    }
  }

  lemma BoundedByEffect(env: Env, s: State, f: Effect, s': State, tid: Id, a: int, t: int)
    requires ForeignKeys(s) && LifetimesOk(s.tenants) && Did(env, s, f, s')
    requires Bounded(s, tid, a, t) && LifetimesWithin(s.tenants, tid, a, t)
    ensures Bounded(s', tid, a, t)
  {
    hide ForeignKeys, E.RedeemCode, E.Rotate, E.IsFresh, ActiveKids, Paired;
    match f
    case Redeemed(id, clientId, g) => BoundedByRedeem(env, s, id, clientId, g, tid, a, t);
    case Rotated(id, clientId, scope, g) => BoundedByRotate(env, s, id, clientId, scope, g, tid, a, t);
    case Opened(id, row) => NewSessionIsUnused(s, id);
    case Issued(id, row) =>
      if s.sessions[row.sessionId].row.tenantId == tid {
        assert s.tenants[tid].authCodeLifetime * SECOND <= a * SECOND;
      }
    case _ =>
  }

  lemma NewSessionIsUnused(s: State, id: Id)
    requires ForeignKeys(s) && id !in s.sessions
    ensures forall x {:trigger s.codes[x].sessionId} | x in s.codes :: s.codes[x].sessionId != id
    ensures forall x {:trigger s.accessTokens[x].row.sessionId} | x in s.accessTokens :: s.accessTokens[x].row.sessionId != id
  {
  }

  lemma BoundedStep(env: Env, s: State, e: Event, tid: Id, a: int, t: int)
    requires Invariant(s) && Enabled(env, s, e) && Bounded(s, tid, a, t) && LifetimesWithin(s.tenants, tid, a, t)
    ensures Bounded(Step(env, s, e).state, tid, a, t)
  {
    hide ForeignKeys, UniqueIndexes, Step, Bounded, Did, Enabled, ParentsSound, PairsSound;
    var f := StepHasEffect(env, s, e);
    BoundedByEffect(env, s, f, Step(env, s, e).state, tid, a, t);
  }

  lemma {:induction false} BoundedAlways(env: Env, trace: seq<State>, events: seq<Event>, n: nat, tid: Id, a: int, t: int)
    requires IsRun(env, trace, events) && n < |trace|
    requires forall i | 0 <= i < n :: LifetimesWithin(trace[i].tenants, tid, a, t)
    ensures Bounded(trace[n], tid, a, t)
  {
    hide Invariant, Step, Bounded, LifetimesWithin;
    if n == 0 {
      BoundedInitially(trace[0], tid, a, t);
    } else {
      BoundedAlways(env, trace, events, n - 1, tid, a, t);
      RunIsContinuation(env, trace, events);
      InvariantAlways(env, trace, events, n - 1);
      assert Next(env, trace[n - 1], events[n - 1], trace[n]);
      BoundedStep(env, trace[n - 1], events[n - 1], tid, a, t);
    }
  }

  lemma BoundedInitially(s: State, tid: Id, a: int, t: int)
    requires Initial(s)
    ensures Bounded(s, tid, a, t)
  {
    hide Integrity;
  }

  /**
   If a tenant's code lifetime never exceeded `a` and its access-token lifetime never exceeded `t` seconds up to some
   point of a run, every access token of its sessions expires strictly before its session's expiry plus `a + t`. What
   other tenants do does not matter.
   */
  lemma AccessOutlivesSessionBriefly(env: Env, trace: seq<State>, events: seq<Event>, n: nat, tid: Id, a: int, t: int)
    requires IsRun(env, trace, events) && n < |trace|
    requires forall i | 0 <= i < n :: LifetimesWithin(trace[i].tenants, tid, a, t)
    ensures forall x | x in trace[n].accessTokens ::
      var sid := trace[n].accessTokens[x].row.sessionId;
      && sid in trace[n].sessions
      && (trace[n].sessions[sid].row.tenantId == tid ==>
            trace[n].accessTokens[x].row.expiresAt < trace[n].sessions[sid].row.expiresAt + (a + t) * SECOND)
  {
    hide Step;
    BoundedAlways(env, trace, events, n, tid, a, t);
    RunIsContinuation(env, trace, events);
    InvariantAlways(env, trace, events, n);
    assert Integrity(trace[n]);
  }
}
