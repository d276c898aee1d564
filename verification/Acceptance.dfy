/** Which access tokens userinfo accepts, and that rejection is final. */
module Acceptance {
  import opened Basics
  import opened Schema
  import opened Repository
  import opened Machine
  import opened Effects
  import opened Invariants
  import opened Evolution
  import E = Endpoints

  /** `a` is the row recorded for the access token `j`. */
  ghost predicate IsRowOf(s: State, j: Jwt, a: Id) {
    && a in s.accessTokens
    && j.AccessJwt?
    && s.accessTokens[a].row.jti == j.jti
    && s.accessTokens[a].row.sessionId == j.sid
    && s.accessTokens[a].row.scope == j.scope
    && s.accessTokens[a].row.expiresAt == j.exp
    && j.sid in s.sessions && s.sessions[j.sid].row.userId == j.sub
  }

  /** Every signed access token has its row; signed strings contain a dot. */
  ghost predicate SignedRecorded(s: State) {
    forall x | x in s.signed ::
      && '.' in x
      && (s.signed[x].AccessJwt? ==> exists a :: IsRowOf(s, s.signed[x], a))
  }

  lemma RowSurvives(s: State, t: State, j: Jwt, a: Id)
    requires IsRowOf(s, j, a) && Evolved(s.accessTokens, t.accessTokens) && Evolved(s.sessions, t.sessions)
    ensures IsRowOf(t, j, a)
  {
  }

  lemma SignedSurvives(s: State, t: State)
    requires SignedRecorded(s) && Evolved(s.accessTokens, t.accessTokens) && Evolved(s.sessions, t.sessions)
    ensures forall x | x in s.signed ::
      '.' in x && (s.signed[x].AccessJwt? ==> exists a :: IsRowOf(t, s.signed[x], a))
  {
    hide IsRowOf, Evolved;
    forall x | x in s.signed
      ensures '.' in x && (s.signed[x].AccessJwt? ==> exists a :: IsRowOf(t, s.signed[x], a))
    {
      if s.signed[x].AccessJwt? {
        var a :| IsRowOf(s, s.signed[x], a);
        RowSurvives(s, t, s.signed[x], a);
      }
    }
  }

  /** What one step signs. */
  lemma SignedByRedeem(env: Env, s: State, id: Id, clientId: Id, g: E.Generated)
    requires ForeignKeys(s) && id in s.codes && clientId in s.clients && ActiveKids(s.keys) != {} && E.IsFresh(env, s, g)
    ensures
      var t := E.RedeemCode(env, s, id, clientId, g).state;
      && t.signed.Keys == s.signed.Keys + {g.accessText, g.idText}
      && (forall x | x in s.signed :: t.signed[x] == s.signed[x])
      && t.signed[g.idText].IdJwt?
      && IsRowOf(t, t.signed[g.accessText], g.accessTokenId)
      && t.signed[g.accessText].kid == t.signed[g.idText].kid == FindActive(s.keys).value
  {
    hide E.IsFresh, E.RedeemCode, NewestAmong;
    FreshTexts(env, s, g);
    RedeemedTables(env, s, id, clientId, g);
    RedeemedSigned(env, s, id, clientId, g);
  }

  lemma SignedByRotate(env: Env, s: State, id: Id, clientId: Id, scope: string, g: E.Generated)
    requires ForeignKeys(s) && id in s.refreshTokens && clientId in s.clients && ActiveKids(s.keys) != {} && E.IsFresh(env, s, g)
    ensures
      var t := E.Rotate(env, s, id, clientId, scope, g).state;
      && t.signed.Keys == s.signed.Keys + {g.accessText}
      && (forall x | x in s.signed :: t.signed[x] == s.signed[x])
      && IsRowOf(t, t.signed[g.accessText], g.accessTokenId)
      && t.signed[g.accessText].kid == FindActive(s.keys).value
  {
    hide E.IsFresh, IsSigning;
    FreshTexts(env, s, g);
  }

  lemma SignedRecordedByEffect(env: Env, s: State, f: Effect, t: State)
    requires ForeignKeys(s) && Did(env, s, f, t) && SignedRecorded(s)
    ensures SignedRecorded(t)
  {
    hide ForeignKeys, IsRowOf, E.RedeemCode, E.Rotate, E.IsFresh, ActiveKids, Paired, Evolved, CodesEvolved;
    EffectEvolves(env, s, f, t);
    SignedSurvives(s, t);
    match f
    case Redeemed(id, clientId, g) => FreshTexts(env, s, g); SignedByRedeem(env, s, id, clientId, g);
    case Rotated(id, clientId, scope, g) => FreshTexts(env, s, g); SignedByRotate(env, s, id, clientId, scope, g);
    case _ =>
  }

  lemma {:induction false} SignedAlwaysRecorded(env: Env, trace: seq<State>, events: seq<Event>, n: nat)
    requires IsRun(env, trace, events) && n < |trace|
    ensures SignedRecorded(trace[n])
  {
    hide Invariant, Step, SignedRecorded;
    if n == 0 {
      NothingSigned(trace[0]);
    } else {
      SignedAlwaysRecorded(env, trace, events, n - 1);
      RunIsContinuation(env, trace, events);
      InvariantAlways(env, trace, events, n - 1);
      assert Next(env, trace[n - 1], events[n - 1], trace[n]);
      SignedStep(env, trace[n - 1], events[n - 1]);
    }
  }

  lemma NothingSigned(s: State)
    requires Initial(s)
    ensures SignedRecorded(s)
  {
    hide Integrity;
  }

  lemma SignedStep(env: Env, s: State, e: Event)
    requires Invariant(s) && Enabled(env, s, e) && SignedRecorded(s)
    ensures SignedRecorded(Step(env, s, e).state)
  {
    hide ForeignKeys, UniqueIndexes, Step, SignedRecorded, Did, Enabled, ParentsSound, PairsSound;
    var f := StepHasEffect(env, s, e);
    SignedRecordedByEffect(env, s, f, Step(env, s, e).state);
  }

  // ---------- Acceptance ----------

  /** With its row at hand: a signed access token is accepted exactly while its key is active, it has not expired and its row is live. */
  lemma AcceptedExactly(s: State, token: string, a: Id)
    requires AccessTokensUnique(s.accessTokens) && token in s.signed && IsRowOf(s, s.signed[token], a)
    ensures E.Accepts(s, token) <==>
      s.signed[token].kid in ActiveKids(s.keys) && s.now < s.signed[token].exp && s.accessTokens[a].Live?
  {
    assert FindByJti(s.accessTokens, s.signed[token].jti) == Some(a);
  }

  lemma RejectionKept(s: State, t: State, token: string, a: Id)
    requires StateEvolved(s, t) && AccessTokensUnique(s.accessTokens) && AccessTokensUnique(t.accessTokens)
    requires token in s.signed && s.signed[token].kid in s.keys && IsRowOf(s, s.signed[token], a)
    requires !E.Accepts(s, token)
    ensures !E.Accepts(t, token)
  {
    hide E.Accepts, CodesEvolved, TenantsEvolved, UsersEvolved, ClientsEvolved;
    RowSurvives(s, t, s.signed[token], a);
    AcceptedExactly(s, token, a);
    AcceptedExactly(t, token, a);
  }

  /** The key a token was signed with is a key of the provider. */
  ghost predicate KidsKnown(s: State) {
    forall x | x in s.signed :: s.signed[x].kid in s.keys
  }

  lemma KidsKnownByEffect(env: Env, s: State, f: Effect, t: State)
    requires ForeignKeys(s) && Did(env, s, f, t) && KidsKnown(s) && s.keys.Keys <= t.keys.Keys
    ensures KidsKnown(t)
  {
    hide ForeignKeys, E.RedeemCode, E.Rotate, E.IsFresh, Paired;
    match f
    case Redeemed(id, clientId, g) => SignedByRedeem(env, s, id, clientId, g);
    case Rotated(id, clientId, scope, g) => SignedByRotate(env, s, id, clientId, scope, g);
    case _ =>
  }

  lemma KidsKnownStep(env: Env, s: State, e: Event)
    requires Invariant(s) && Enabled(env, s, e) && KidsKnown(s)
    ensures KidsKnown(Step(env, s, e).state)
  {
    hide ForeignKeys, UniqueIndexes, Step, KidsKnown, Did, Enabled, ParentsSound, PairsSound, Evolved;
    var f := StepHasEffect(env, s, e);
    StepEvolves(env, s, e);
    KidsKnownByEffect(env, s, f, Step(env, s, e).state);
  }

  lemma {:induction false} KidsAlwaysKnown(env: Env, trace: seq<State>, events: seq<Event>, n: nat)
    requires IsRun(env, trace, events) && n < |trace|
    ensures KidsKnown(trace[n])
  {
    hide Invariant, Step;
    if n > 0 {
      KidsAlwaysKnown(env, trace, events, n - 1);
      RunIsContinuation(env, trace, events);
      InvariantAlways(env, trace, events, n - 1);
      assert Next(env, trace[n - 1], events[n - 1], trace[n]);
      KidsKnownStep(env, trace[n - 1], events[n - 1]);
    }
  }

  /** Rejection is final: a signed access token that userinfo rejects at some point of a run is rejected at every later point. */
  lemma RejectedForever(env: Env, trace: seq<State>, events: seq<Event>, i: nat, j: nat, token: string)
    requires IsRun(env, trace, events) && i <= j < |trace|
    requires token in trace[i].signed && !E.Accepts(trace[i], token)
    ensures !E.Accepts(trace[j], token)
  {
    hide Step, StateEvolved, ForeignKeys, E.Accepts, IsRowOf, RotationSound, TenantsCohere;
    RunIsContinuation(env, trace, events);
    InvariantAlways(env, trace, events, i);
    InvariantAlways(env, trace, events, j);
    EvolvesAlong(env, trace, events, i, j);
    if trace[i].signed[token].AccessJwt? {
      SignedAlwaysRecorded(env, trace, events, i);
      KidsAlwaysKnown(env, trace, events, i);
      var a :| IsRowOf(trace[i], trace[i].signed[token], a);
      RejectionKept(trace[i], trace[j], token, a);
    } else {
      NotAnAccessToken(trace[i], trace[j], token);
    }
  }

  lemma NotAnAccessToken(s: State, t: State, token: string)
    requires StateEvolved(s, t) && token in s.signed && s.signed[token].IdJwt?
    ensures !E.Accepts(t, token)
  {
    hide Evolved, CodesEvolved;
  }

  /** An accepted token is answered with its user's claims. */
  lemma AcceptedGetsClaims(env: Env, trace: seq<State>, events: seq<Event>, n: nat, token: string)
    requires IsRun(env, trace, events) && n < |trace| && E.Accepts(trace[n], token)
    ensures
      var s := trace[n];
      var j := s.signed[token];
      && j.sid in s.sessions && s.sessions[j.sid].row.userId == j.sub && j.sub in s.users
      && E.UserInfo(s, token) == E.Claims(E.ClaimsOf(j.sub, s.users[j.sub], j.scope))
  {
    hide Step, RotationSound, TenantsCohere, UniqueIndexes;
    RunIsContinuation(env, trace, events);
    InvariantAlways(env, trace, events, n);
    SignedAlwaysRecorded(env, trace, events, n);
    var a :| IsRowOf(trace[n], trace[n].signed[token], a);
  }
}
