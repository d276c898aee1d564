/** The token type hint of a revocation request is only a search order (RFC 7009 section 2.1). */
module Hints {
  import opened Basics
  import opened Schema
  import opened Repository
  import opened Machine
  import opened Effects
  import opened Invariants
  import opened Evolution
  import opened Acceptance
  import E = Endpoints

  /** What a presented string denotes, without any search order. */
  datatype Denotation = DenotesAccess(id: Id) | DenotesRefresh(id: Id) | DenotesNothing

  /** Every stored hash is that of a dot-free string, as refresh tokens are generated in hex. */
  ghost predicate RefreshTextsPlain(env: Env, refreshTokens: Table<RefreshToken>) {
    forall r {:trigger refreshTokens[r].row.tokenHash} | r in refreshTokens ::
      exists text :: '.' !in text && env.sha256Hex(text) == refreshTokens[r].row.tokenHash
  }

  ghost predicate CollisionFree(env: Env) {
    forall x, y | env.sha256Hex(x) == env.sha256Hex(y) :: x == y
  }

  ghost predicate HashesSound(env: Env, s: State) {
    CollisionFree(env) && RefreshTextsPlain(env, s.refreshTokens)
  }

  lemma PlainByEffect(env: Env, s: State, f: Effect, t: State)
    requires ForeignKeys(s) && Did(env, s, f, t) && RefreshTextsPlain(env, s.refreshTokens)
    ensures RefreshTextsPlain(env, t.refreshTokens)
  {
    hide ForeignKeys, E.RedeemCode, E.Rotate, E.IsFresh, ActiveKids, Paired;
    match f
    case Redeemed(id, clientId, g) => FreshTexts(env, s, g); RedeemedTables(env, s, id, clientId, g);
    case Rotated(id, clientId, scope, g) => FreshTexts(env, s, g); RotatedTables(env, s, id, clientId, scope, g);
    case Withdrawn(_, _, _) => assert forall r | r in t.refreshTokens :: t.refreshTokens[r].row == s.refreshTokens[r].row;
    case _ =>
  }

  lemma PlainStep(env: Env, s: State, e: Event)
    requires Invariant(s) && Enabled(env, s, e) && RefreshTextsPlain(env, s.refreshTokens)
    ensures RefreshTextsPlain(env, Step(env, s, e).state.refreshTokens)
  {
    hide ForeignKeys, UniqueIndexes, Step, RefreshTextsPlain, Did, Enabled, ParentsSound, PairsSound;
    var f := StepHasEffect(env, s, e);
    PlainByEffect(env, s, f, Step(env, s, e).state);
  }

  lemma {:induction false} PlainAlways(env: Env, trace: seq<State>, events: seq<Event>, n: nat)
    requires IsRun(env, trace, events) && n < |trace|
    ensures RefreshTextsPlain(env, trace[n].refreshTokens)
  {
    hide Invariant, Step;
    if n > 0 {
      PlainAlways(env, trace, events, n - 1);
      RunIsContinuation(env, trace, events);
      InvariantAlways(env, trace, events, n - 1);
      assert Next(env, trace[n - 1], events[n - 1], trace[n]);
      PlainStep(env, trace[n - 1], events[n - 1]);
    }
  }

  /** At most one of the two readings applies: signed strings contain a dot, refresh tokens do not. */
  lemma ReadingsExclude(env: Env, s: State, token: string)
    requires SignedRecorded(s) && HashesSound(env, s) && token in s.signed
    ensures FindByTokenHash(s.refreshTokens, env.sha256Hex(token)).None?
  {
    forall r | r in s.refreshTokens
      ensures s.refreshTokens[r].row.tokenHash != env.sha256Hex(token)
    {
      var text :| '.' !in text && env.sha256Hex(text) == s.refreshTokens[r].row.tokenHash;
      assert text != token;
    }
  }

  ghost predicate Denotes(env: Env, s: State, token: string, d: Denotation) {
    match d
    case DenotesAccess(id) => E.Validates(s, token) && id in s.accessTokens && s.accessTokens[id].row.jti == s.signed[token].jti
    case DenotesRefresh(id) => id in s.refreshTokens && s.refreshTokens[id].row.tokenHash == env.sha256Hex(token)
    case DenotesNothing =>
      && (forall id | id in s.accessTokens && E.Validates(s, token) :: s.accessTokens[id].row.jti != s.signed[token].jti)
      && (forall id | id in s.refreshTokens :: s.refreshTokens[id].row.tokenHash != env.sha256Hex(token))
  }

  /** Revokes what the token denotes: an access token alone, a refresh token with its access token. */
  function RevokeDenoted(s: State, d: Denotation): State
    requires d.DenotesRefresh? ==> d.id in s.refreshTokens
  {
    match d
    case DenotesAccess(id) => RevokeAccessTokens(s, {id})
    case DenotesRefresh(id) => RevokeAccessTokens(RevokeRefreshTokens(s, {id}), {s.refreshTokens[id].row.accessTokenId})
    case DenotesNothing => s
  }

  /** For every token and every hint, the outcome is the revocation of the record the token denotes. */
  lemma HintIsOnlyOrder(env: Env, s: State, token: string, hint: string, d: Denotation)
    requires AccessTokensUnique(s.accessTokens) && RefreshTokensUnique(s.refreshTokens)
    requires SignedRecorded(s) && HashesSound(env, s) && Denotes(env, s, token, d)
    ensures E.RevokeByHint(env, s, token, hint) == RevokeDenoted(s, d)
  {
    hide SignedRecorded, HashesSound;
    if token in s.signed { ReadingsExclude(env, s, token); }
    match d
    case DenotesAccess(id) => assert FindByJti(s.accessTokens, s.signed[token].jti) == Some(id);
    case DenotesRefresh(id) => assert FindByTokenHash(s.refreshTokens, env.sha256Hex(token)) == Some(id);
    case DenotesNothing =>
  }

  /** Every token denotes something, if only nothing. */
  lemma DenotesSomething(env: Env, s: State, token: string) returns (d: Denotation)
    ensures Denotes(env, s, token, d)
  {
    if E.Validates(s, token) && FindByJti(s.accessTokens, s.signed[token].jti).Some? {
      d := DenotesAccess(FindByJti(s.accessTokens, s.signed[token].jti).value);
    } else if FindByTokenHash(s.refreshTokens, env.sha256Hex(token)).Some? {
      d := DenotesRefresh(FindByTokenHash(s.refreshTokens, env.sha256Hex(token)).value);
    } else {
      d := DenotesNothing;
    }
  }

  /** All hints lead to the same state. */
  lemma HintsAgree(env: Env, s: State, token: string, hint: string, other: string)
    requires AccessTokensUnique(s.accessTokens) && RefreshTokensUnique(s.refreshTokens)
    requires SignedRecorded(s) && HashesSound(env, s)
    ensures E.RevokeByHint(env, s, token, hint) == E.RevokeByHint(env, s, token, other)
  {
    hide SignedRecorded, HashesSound, Denotes, E.RevokeByHint;
    var d := DenotesSomething(env, s, token);
    HintIsOnlyOrder(env, s, token, hint, d);
    HintIsOnlyOrder(env, s, token, other, d);
  }

  /** Revoking twice, with any hints and at any later time, is revoking once. */
  lemma SecondRevocationIsNoop(env: Env, s: State, token: string, hint: string, other: string, later: Time)
    requires Invariant(s) && SignedRecorded(s) && HashesSound(env, s) && s.now <= later
    ensures
      var t := E.RevokeByHint(env, s, token, hint).(now := later);
      E.RevokeByHint(env, t, token, other) == t
  {
    hide SignedRecorded, HashesSound, E.RevokeByHint, Integrity, TenantsCohere, RotationSound, Denotes;
    var d := DenotesSomething(env, s, token);
    var once := E.RevokeByHint(env, s, token, hint);
    UniqueOf(s);
    HintIsOnlyOrder(env, s, token, hint, d);
    DenotationIn(env, s, token, d);
    StillSound(env, s, d, later);
    var t := once.(now := later);
    var d' := DenotesSomething(env, t, token);
    HintIsOnlyOrder(env, t, token, other, d');
    DenotedAgain(env, s, token, d, d', later);
  }

  lemma UniqueOf(s: State)
    requires Integrity(s)
    ensures AccessTokensUnique(s.accessTokens) && RefreshTokensUnique(s.refreshTokens)
  {
  }

  lemma DenotationIn(env: Env, s: State, token: string, d: Denotation)
    requires Denotes(env, s, token, d)
    ensures d.DenotesRefresh? ==> d.id in s.refreshTokens
  {
  }

  lemma StillSound(env: Env, s: State, d: Denotation, later: Time)
    requires AccessTokensUnique(s.accessTokens) && RefreshTokensUnique(s.refreshTokens)
    requires SignedRecorded(s) && HashesSound(env, s) && (d.DenotesRefresh? ==> d.id in s.refreshTokens)
    ensures
      var t := RevokeDenoted(s, d).(now := later);
      && AccessTokensUnique(t.accessTokens) && RefreshTokensUnique(t.refreshTokens)
      && SignedRecorded(t) && HashesSound(env, t)
  {
    hide IsRowOf, SignedRecorded;
    var t := RevokeDenoted(s, d).(now := later);
    SignedSurvives(s, t);
    SignedOnly(t);
    assert forall r | r in t.refreshTokens :: t.refreshTokens[r].row == s.refreshTokens[r].row;
    assert RefreshTextsPlain(env, t.refreshTokens);
  }

  lemma SignedOnly(t: State)
    requires forall x | x in t.signed :: '.' in x && (t.signed[x].AccessJwt? ==> exists a :: IsRowOf(t, t.signed[x], a))
    ensures SignedRecorded(t)
  {
  }

  /** What a token denotes can only turn into nothing, and the second revocation finds it revoked. */
  lemma DenotedAgain(env: Env, s: State, token: string, d: Denotation, d': Denotation, later: Time)
    requires Denotes(env, s, token, d) && s.now <= later && (d.DenotesRefresh? ==> d.id in s.refreshTokens)
    requires AccessTokensUnique(s.accessTokens) && RefreshTokensUnique(s.refreshTokens)
    requires SignedRecorded(s) && HashesSound(env, s)
    requires Denotes(env, RevokeDenoted(s, d).(now := later), token, d')
    ensures d'.DenotesRefresh? ==> d'.id in s.refreshTokens
    ensures
      var t := RevokeDenoted(s, d).(now := later);
      RevokeDenoted(t, d') == t
  {
    hide SignedRecorded, HashesSound;
    var t := RevokeDenoted(s, d).(now := later);
    if token in s.signed { ReadingsExclude(env, s, token); }
    match d'
    case DenotesAccess(id) =>
      assert d == d';
      RevokeNothing(t.accessTokens, {id}, later);
    case DenotesRefresh(id) =>
      assert d == d';
      RevokeNothing(t.refreshTokens, {id}, later);
      RevokeNothing(t.accessTokens, {t.refreshTokens[id].row.accessTokenId}, later);
    case DenotesNothing =>
  }

  /** In every state of a run, the hint does not matter, and for any token a request repeated before anything else happens changes nothing. */
  lemma RevocationAlongRuns(env: Env, trace: seq<State>, events: seq<Event>, n: nat, token: string, hint: string, other: string, later: Time)
    requires IsRun(env, trace, events) && n < |trace| && CollisionFree(env) && trace[n].now <= later
    ensures E.RevokeByHint(env, trace[n], token, hint) == E.RevokeByHint(env, trace[n], token, other)
    ensures
      var t := E.RevokeByHint(env, trace[n], token, hint).(now := later);
      E.RevokeByHint(env, t, token, other) == t
  {
    hide Step, Integrity, RotationSound, TenantsCohere, SignedRecorded, RefreshTextsPlain, E.RevokeByHint;
    RunIsContinuation(env, trace, events);
    InvariantAlways(env, trace, events, n);
    SignedAlwaysRecorded(env, trace, events, n);
    PlainAlways(env, trace, events, n);
    UniqueOf(trace[n]);
    HintsAgree(env, trace[n], token, hint, other);
    SecondRevocationIsNoop(env, trace[n], token, hint, other, later);
  }

  // ---------- A second request at any later point of a run ----------

  /** What was denoted is revoked, a refresh token together with its access token. */
  ghost predicate IsDown(s: State, d: Denotation) {
    match d
    case DenotesAccess(id) => id in s.accessTokens && s.accessTokens[id].Revoked?
    case DenotesRefresh(id) =>
      && id in s.refreshTokens && s.refreshTokens[id].Revoked?
      && s.refreshTokens[id].row.accessTokenId in s.accessTokens
      && s.accessTokens[s.refreshTokens[id].row.accessTokenId].Revoked?
    case DenotesNothing => true
  }

  lemma RevokedIsDown(env: Env, s: State, token: string, d: Denotation)
    requires PairsSound(s.accessTokens, s.refreshTokens) && Denotes(env, s, token, d)
    ensures IsDown(RevokeDenoted(s, d), d)
  {
  }

  lemma DownStays(s: State, t: State, d: Denotation)
    requires StateEvolved(s, t) && IsDown(s, d)
    ensures IsDown(t, d)
  {
  }

  lemma DownIsFinal(s: State, d: Denotation)
    requires IsDown(s, d)
    ensures RevokeDenoted(s, d) == s
  {
    match d
    case DenotesAccess(id) => RevokeNothing(s.accessTokens, {id}, s.now);
    case DenotesRefresh(id) =>
      RevokeNothing(s.refreshTokens, {id}, s.now);
      RevokeNothing(s.accessTokens, {s.refreshTokens[id].row.accessTokenId}, s.now);
    case DenotesNothing =>
  }

  /** A token that denotes a record never denotes another one later, though it may come to denote nothing. */
  lemma DenotationIsStable(env: Env, s: State, t: State, token: string, d: Denotation, d': Denotation)
    requires StateEvolved(s, t) && Denotes(env, s, token, d) && Denotes(env, t, token, d') && !d.DenotesNothing?
    requires AccessTokensUnique(t.accessTokens) && RefreshTokensUnique(t.refreshTokens)
    requires SignedRecorded(t) && HashesSound(env, t)
    ensures d' == d || d' == DenotesNothing
  {
    hide SignedRecorded, HashesSound;
    if token in t.signed { ReadingsExclude(env, t, token); }
  }

  /**
   Once a request has revoked the record a token denotes, every later request with the same token, whatever happened in
   between and with whatever hint, changes nothing.
   */
  lemma RepeatedRevocation(env: Env, trace: seq<State>, events: seq<Event>, i: nat, j: nat, d: Denotation)
    requires IsRun(env, trace, events) && i < j < |events| && CollisionFree(env)
    requires events[i].Revoke? && events[j].Revoke? && events[i].revoke.token == events[j].revoke.token != ""
    requires E.AuthenticateClient(env, trace[i], events[i].revoke.credentials).Some?
    requires Denotes(env, trace[i], events[i].revoke.token, d) && !d.DenotesNothing?
    ensures trace[i + 1] == RevokeDenoted(trace[i], d) && trace[j + 1] == trace[j]
  {
    hide Integrity, TenantsCohere, SignedRecorded, RefreshTextsPlain, E.RevokeByHint, Denotes, ParentsSound, PairsSound;
    hide StateEvolved, RevokeDenoted, AccessTokensUnique, RefreshTokensUnique, E.AuthenticateClient, ForeignKeys;
    var token := events[i].revoke.token;
    RevocationDoes(env, trace, events, i, d);
    InvariantAt(env, trace, events, i);
    RevokedIsDown(env, trace[i], token, d);
    InvariantAt(env, trace, events, 0);
    EvolvesAlong(env, trace, events, i + 1, j);
    EvolvesAlong(env, trace, events, i, j);
    DownStays(trace[i + 1], trace[j], d);
    var later := DenotesSomething(env, trace[j], token);
    InvariantAt(env, trace, events, j);
    UniqueOf(trace[j]);
    SignedAlwaysRecorded(env, trace, events, j);
    PlainAlways(env, trace, events, j);
    DenotationIsStable(env, trace[i], trace[j], token, d, later);
    DownIsFinal(trace[j], later);
    RevocationDoes(env, trace, events, j, later);
  }

  lemma InvariantAt(env: Env, trace: seq<State>, events: seq<Event>, n: nat)
    requires IsRun(env, trace, events) && n < |trace|
    ensures IsContinuation(env, trace, events) && Invariant(trace[0]) && Invariant(trace[n])
    ensures Integrity(trace[n]) && PairsSound(trace[n].accessTokens, trace[n].refreshTokens)
  {
    hide Step, Integrity, TenantsCohere, PairsSound;
    RunIsContinuation(env, trace, events);
    InvariantAlways(env, trace, events, n);
  }

  /** A revocation request of an authenticated client revokes what its token denotes; any other changes nothing. */
  lemma RevocationDoes(env: Env, trace: seq<State>, events: seq<Event>, n: nat, d: Denotation)
    requires IsRun(env, trace, events) && n < |events| && CollisionFree(env) && events[n].Revoke?
    requires events[n].revoke.token != "" && Denotes(env, trace[n], events[n].revoke.token, d)
    ensures d.DenotesRefresh? ==> d.id in trace[n].refreshTokens
    ensures trace[n + 1] ==
      if E.AuthenticateClient(env, trace[n], events[n].revoke.credentials).Some? then RevokeDenoted(trace[n], d) else trace[n]
  {
    hide Integrity, TenantsCohere, SignedRecorded, RefreshTextsPlain, E.RevokeByHint, ParentsSound, PairsSound, E.AuthenticateClient;
    hide AccessTokensUnique, RefreshTokensUnique, ForeignKeys, Denotes, RevokeDenoted;
    var r := events[n].revoke;
    InvariantAt(env, trace, events, n);
    UniqueOf(trace[n]);
    SignedAlwaysRecorded(env, trace, events, n);
    PlainAlways(env, trace, events, n);
    DenotationIn(env, trace[n], r.token, d);
    HintIsOnlyOrder(env, trace[n], r.token, r.hint, d);
    assert Next(env, trace[n], events[n], trace[n + 1]);
  }
}
