/**
 Counting per session in serial runs: what was minted is accounted for by used codes and by rotations, live
 access tokens never outnumber used codes, and a revoked session can only be minted from by its unused codes.
 */
module Counting {
  import opened Basics
  import opened Schema
  import opened Repository
  import opened Machine
  import opened Effects
  import opened Invariants
  import E = Endpoints

  ghost function UsedCodes(codes: map<Id, AuthCode>, sid: Id): set<Id> {
    set x | x in codes && codes[x].sessionId == sid && codes[x].IsUsed()
  }

  ghost function UnusedCodes(codes: map<Id, AuthCode>, sid: Id): set<Id> {
    set x | x in codes && codes[x].sessionId == sid && !codes[x].IsUsed()
  }

  ghost function IdTokensOf(idTokens: map<Id, IdToken>, sid: Id): set<Id> {
    set x | x in idTokens && idTokens[x].sessionId == sid
  }

  ghost function Minted(accessTokens: Table<AccessToken>, sid: Id): set<Id> {
    set x | x in accessTokens && accessTokens[x].row.sessionId == sid
  }

  ghost function LiveAccess(accessTokens: Table<AccessToken>, sid: Id): set<Id> {
    set x | x in accessTokens && accessTokens[x].row.sessionId == sid && accessTokens[x].Live?
  }

  /** Refresh tokens that came from a rotation. */
  ghost function Successors(refreshTokens: Table<RefreshToken>, sid: Id): set<Id> {
    set x | x in refreshTokens && refreshTokens[x].row.sessionId == sid && refreshTokens[x].row.parentId.Some?
  }

  ghost predicate HasLivePartner(refreshTokens: Table<RefreshToken>, a: Id) {
    exists x :: x in refreshTokens && refreshTokens[x].Live? && refreshTokens[x].row.accessTokenId == a
  }

  /** Access tokens that are live or could still be replaced: live themselves or paired with a live refresh token. */
  ghost function Carrying(accessTokens: Table<AccessToken>, refreshTokens: Table<RefreshToken>, sid: Id): set<Id> {
    set x | x in accessTokens && accessTokens[x].row.sessionId == sid
            && (accessTokens[x].Live? || HasLivePartner(refreshTokens, x))
  }

  ghost predicate Balanced(s: State, sid: Id) {
    && |UsedCodes(s.codes, sid)| == |IdTokensOf(s.idTokens, sid)|
    && |Minted(s.accessTokens, sid)| == |IdTokensOf(s.idTokens, sid)| + |Successors(s.refreshTokens, sid)|
    && |Carrying(s.accessTokens, s.refreshTokens, sid)| <= |UsedCodes(s.codes, sid)|
  }

  // ---------- How each set changes with each write ----------

  lemma CodeUsed(codes: map<Id, AuthCode>, id: Id, now: Time, sid: Id)
    requires id in codes && !codes[id].IsUsed()
    ensures
      var after := codes[id := codes[id].(usedAt := Some(now))];
      var own := codes[id].sessionId == sid;
      && UsedCodes(after, sid) == UsedCodes(codes, sid) + (if own then {id} else {})
      && UnusedCodes(after, sid) == UnusedCodes(codes, sid) - (if own then {id} else {})
      && id !in UsedCodes(codes, sid) && (own ==> id in UnusedCodes(codes, sid))
  {
  }

  lemma CodeAdded(codes: map<Id, AuthCode>, id: Id, row: AuthCode, sid: Id)
    requires id !in codes && row.usedAt.None?
    ensures UsedCodes(codes[id := row], sid) == UsedCodes(codes, sid)
    ensures row.sessionId != sid ==> UnusedCodes(codes[id := row], sid) == UnusedCodes(codes, sid)
  {
  }

  lemma IdTokenAdded(idTokens: map<Id, IdToken>, id: Id, row: IdToken, sid: Id)
    requires id !in idTokens
    ensures IdTokensOf(idTokens[id := row], sid) == IdTokensOf(idTokens, sid) + (if row.sessionId == sid then {id} else {})
    ensures id !in IdTokensOf(idTokens, sid)
  {
  }

  lemma AccessTokenAdded(accessTokens: Table<AccessToken>, id: Id, row: AccessToken, sid: Id)
    requires id !in accessTokens
    ensures Minted(accessTokens[id := Live(row)], sid) == Minted(accessTokens, sid) + (if row.sessionId == sid then {id} else {})
    ensures id !in Minted(accessTokens, sid)
  {
  }

  lemma RefreshTokenAdded(refreshTokens: Table<RefreshToken>, id: Id, row: RefreshToken, sid: Id)
    requires id !in refreshTokens
    ensures Successors(refreshTokens[id := Live(row)], sid) ==
              Successors(refreshTokens, sid) + (if row.sessionId == sid && row.parentId.Some? then {id} else {})
    ensures id !in Successors(refreshTokens, sid)
  {
  }

  lemma RevokingKeepsRows(accessTokens: Table<AccessToken>, refreshTokens: Table<RefreshToken>, a: set<Id>, r: set<Id>, now: Time, sid: Id)
    ensures Minted(RevokeIn(accessTokens, a, now), sid) == Minted(accessTokens, sid)
    ensures Successors(RevokeIn(refreshTokens, r, now), sid) == Successors(refreshTokens, sid)
    ensures Carrying(RevokeIn(accessTokens, a, now), RevokeIn(refreshTokens, r, now), sid) <= Carrying(accessTokens, refreshTokens, sid)
  {
    var accessTokens', refreshTokens' := RevokeIn(accessTokens, a, now), RevokeIn(refreshTokens, r, now);
    forall x | HasLivePartner(refreshTokens', x)
      ensures HasLivePartner(refreshTokens, x)
    {
    }
  }

  /** A minted pair adds its access token to the carrying ones and nothing else. */
  lemma CarryingAfterMint(accessTokens: Table<AccessToken>, refreshTokens: Table<RefreshToken>, a: Id, access: AccessToken,
                          r: Id, refresh: RefreshToken, sid: Id)
    requires a !in accessTokens && r !in refreshTokens && refresh.accessTokenId == a
    requires PairsSound(accessTokens, refreshTokens)
    ensures
      var added := if access.sessionId == sid then {a} else {};
      && Carrying(accessTokens[a := Live(access)], refreshTokens, sid) == Carrying(accessTokens, refreshTokens, sid) + added
      && Carrying(accessTokens[a := Live(access)], refreshTokens[r := Live(refresh)], sid)
           == Carrying(accessTokens, refreshTokens, sid) + added
  {
    var refreshTokens' := refreshTokens[r := Live(refresh)];
    forall x | x in accessTokens
      ensures HasLivePartner(refreshTokens', x) <==> HasLivePartner(refreshTokens, x)
    {
      if y :| y in refreshTokens && refreshTokens[y].Live? && refreshTokens[y].row.accessTokenId == x {
        assert refreshTokens'[y] == refreshTokens[y];
      }
    }
  }

  /** Rotation takes the spent token's access token out of the carrying ones. */
  lemma CarryingAfterSpend(accessTokens: Table<AccessToken>, refreshTokens: Table<RefreshToken>, spent: Id, now: Time, sid: Id)
    requires PairsSound(accessTokens, refreshTokens) && spent in refreshTokens && refreshTokens[spent].Live?
    ensures
      var a := refreshTokens[spent].row.accessTokenId;
      && Carrying(RevokeIn(accessTokens, {a}, now), RevokeIn(refreshTokens, {spent}, now), sid)
           == Carrying(accessTokens, refreshTokens, sid) - {a}
      && (refreshTokens[spent].row.sessionId == sid ==> a in Carrying(accessTokens, refreshTokens, sid))
      && PairsSound(RevokeIn(accessTokens, {a}, now), RevokeIn(refreshTokens, {spent}, now))
  {
    var a := refreshTokens[spent].row.accessTokenId;
    var refreshTokens' := RevokeIn(refreshTokens, {spent}, now);
    forall x | x in accessTokens
      ensures HasLivePartner(refreshTokens', x) <==> x != a && HasLivePartner(refreshTokens, x)
    {
      if y :| y in refreshTokens && refreshTokens[y].Live? && refreshTokens[y].row.accessTokenId == x {
        if x != a { assert refreshTokens'[y] == refreshTokens[y]; }
      }
    }
  }

  // ---------- Conservation ----------

  lemma BalancedAfterRedeem(env: Env, s: State, id: Id, clientId: Id, g: E.Generated, sid: Id)
    requires ForeignKeys(s) && PairsSound(s.accessTokens, s.refreshTokens) && Balanced(s, sid)
    requires id in s.codes && clientId in s.clients
    requires Did(env, s, Redeemed(id, clientId, g), E.RedeemCode(env, s, id, clientId, g).state)
    ensures Balanced(E.RedeemCode(env, s, id, clientId, g).state, sid)
  {
    hide ForeignKeys, PairsSound, E.RedeemCode, UsedCodes, IdTokensOf, Minted, Successors, Carrying, E.IsFresh, ActiveKids;
    FreshIds(env, s, g);
    var t := E.RedeemCode(env, s, id, clientId, g).state;
    RedeemedTables(env, s, id, clientId, g);
    CodeUsed(s.codes, id, s.now, sid);
    IdTokenAdded(s.idTokens, g.idTokenId, t.idTokens[g.idTokenId], sid);
    var access := t.accessTokens[g.accessTokenId].row;
    AccessTokenAdded(s.accessTokens, g.accessTokenId, access, sid);
    var refresh := RefreshToken("", None, 0, g.accessTokenId, 0);
    if s.clients[clientId].HasGrantType("refresh_token") {
      refresh := t.refreshTokens[g.refreshTokenId].row;
      RefreshTokenAdded(s.refreshTokens, g.refreshTokenId, refresh, sid);
    }
    CarryingAfterMint(s.accessTokens, s.refreshTokens, g.accessTokenId, access, g.refreshTokenId, refresh, sid);
  }

  lemma BalancedAfterRotate(env: Env, s: State, id: Id, clientId: Id, scope: string, g: E.Generated, sid: Id)
    requires ForeignKeys(s) && PairsSound(s.accessTokens, s.refreshTokens) && Balanced(s, sid)
    requires id in s.refreshTokens && clientId in s.clients
    requires Did(env, s, Rotated(id, clientId, scope, g), E.Rotate(env, s, id, clientId, scope, g).state)
    ensures Balanced(E.Rotate(env, s, id, clientId, scope, g).state, sid)
  {
    hide ForeignKeys, PairsSound, E.Rotate, UsedCodes, IdTokensOf, Minted, Successors, Carrying, E.IsFresh;
    FreshIds(env, s, g);
    var t := E.Rotate(env, s, id, clientId, scope, g).state;
    RotatedTables(env, s, id, clientId, scope, g);
    var token := s.refreshTokens[id].row;
    var accessTokens := RevokeIn(s.accessTokens, {token.accessTokenId}, s.now);
    var refreshTokens := RevokeIn(s.refreshTokens, {id}, s.now);
    RevokingKeepsRows(s.accessTokens, s.refreshTokens, {token.accessTokenId}, {id}, s.now, sid);
    var access, refresh := t.accessTokens[g.accessTokenId].row, t.refreshTokens[g.refreshTokenId].row;
    AccessTokenAdded(accessTokens, g.accessTokenId, access, sid);
    RefreshTokenAdded(refreshTokens, g.refreshTokenId, refresh, sid);
    CarryingAfterSpend(s.accessTokens, s.refreshTokens, id, s.now, sid);
    CarryingAfterMint(accessTokens, refreshTokens, g.accessTokenId, access, g.refreshTokenId, refresh, sid);
  }

  lemma BalancedByEffect(env: Env, s: State, f: Effect, t: State, sid: Id)
    requires ForeignKeys(s) && PairsSound(s.accessTokens, s.refreshTokens) && Balanced(s, sid) && Did(env, s, f, t)
    ensures Balanced(t, sid)
  {
    hide ForeignKeys, PairsSound, E.RedeemCode, E.Rotate, UsedCodes, IdTokensOf, Minted, Successors, Carrying, Paired;
    match f
    case Redeemed(id, clientId, g) => BalancedAfterRedeem(env, s, id, clientId, g, sid);
    case Rotated(id, clientId, scope, g) => BalancedAfterRotate(env, s, id, clientId, scope, g, sid);
    case Issued(id, row) => CodeAdded(s.codes, id, row, sid);
    case Withdrawn(_, a, r) =>
      RevokingKeepsRows(s.accessTokens, s.refreshTokens, a, r, s.now, sid);
      SubsetSize(Carrying(t.accessTokens, t.refreshTokens, sid), Carrying(s.accessTokens, s.refreshTokens, sid));
    case _ =>
  }

  lemma BalancedInitially(s: State, sid: Id)
    requires Initial(s)
    ensures Balanced(s, sid)
  {
    hide Integrity;
    assert UsedCodes(s.codes, sid) == {} && IdTokensOf(s.idTokens, sid) == {};
    assert Minted(s.accessTokens, sid) == {} && Successors(s.refreshTokens, sid) == {};
    assert Carrying(s.accessTokens, s.refreshTokens, sid) == {};
  }

  /**
   In every state of a serial run, for every session: used codes = ID-token rows; access-token rows =
   ID-token rows + rotated refresh tokens; and the live access tokens number at most the used codes.
   */
  lemma {:induction false} SessionAccounts(env: Env, trace: seq<State>, events: seq<Event>, n: nat, sid: Id)
    requires IsRun(env, trace, events) && n < |trace|
    ensures Balanced(trace[n], sid)
    ensures |LiveAccess(trace[n].accessTokens, sid)| <= |UsedCodes(trace[n].codes, sid)|
  {
    hide Invariant, Step, Balanced, Did, Initial;
    if n == 0 {
      BalancedInitially(trace[0], sid);
    } else {
      SessionAccounts(env, trace, events, n - 1, sid);
      RunIsContinuation(env, trace, events);
      InvariantAlways(env, trace, events, n - 1);
      assert Next(env, trace[n - 1], events[n - 1], trace[n]);
      BalancedStep(env, trace[n - 1], events[n - 1], sid);
    }
    LiveIsCarrying(trace[n], sid);
  }

  lemma BalancedStep(env: Env, s: State, e: Event, sid: Id)
    requires Invariant(s) && Enabled(env, s, e) && Balanced(s, sid)
    ensures Balanced(Step(env, s, e).state, sid)
  {
    hide ForeignKeys, UniqueIndexes, Step, Balanced, Did, Enabled, ParentsSound, PairsSound;
    var f := StepHasEffect(env, s, e);
    BalancedByEffect(env, s, f, Step(env, s, e).state, sid);
  }

  lemma LiveIsCarrying(s: State, sid: Id)
    requires Balanced(s, sid)
    ensures |LiveAccess(s.accessTokens, sid)| <= |UsedCodes(s.codes, sid)|
  {
    SubsetSize(LiveAccess(s.accessTokens, sid), Carrying(s.accessTokens, s.refreshTokens, sid));
  }

  // ---------- After a session is revoked ----------

  lemma RevokedSessionStep(env: Env, s: State, e: Event, sid: Id)
    requires Invariant(s) && Enabled(env, s, e) && sid in s.sessions && s.sessions[sid].Revoked?
    ensures
      var t := Step(env, s, e).state;
      && sid in t.sessions && t.sessions[sid].Revoked?
      && |Minted(t.accessTokens, sid)| + |UnusedCodes(t.codes, sid)| == |Minted(s.accessTokens, sid)| + |UnusedCodes(s.codes, sid)|
      && UnusedCodes(t.codes, sid) <= UnusedCodes(s.codes, sid)
      && Successors(t.refreshTokens, sid) == Successors(s.refreshTokens, sid)
  {
    hide ForeignKeys, UniqueIndexes, Step, Did, Enabled, ParentsSound, PairsSound;
    var f := StepHasEffect(env, s, e);
    RevokedSessionByEffect(env, s, f, Step(env, s, e).state, sid);
  }

  lemma RevokedSessionByRedeem(env: Env, s: State, id: Id, clientId: Id, g: E.Generated, sid: Id)
    requires ForeignKeys(s) && id in s.codes && clientId in s.clients
    requires E.IsFresh(env, s, g) && ActiveKids(s.keys) != {} && !s.codes[id].IsUsed()
    ensures
      var t := E.RedeemCode(env, s, id, clientId, g).state;
      && |Minted(t.accessTokens, sid)| + |UnusedCodes(t.codes, sid)| == |Minted(s.accessTokens, sid)| + |UnusedCodes(s.codes, sid)|
      && UnusedCodes(t.codes, sid) <= UnusedCodes(s.codes, sid)
      && Successors(t.refreshTokens, sid) == Successors(s.refreshTokens, sid)
  {
    hide ForeignKeys, E.RedeemCode, UnusedCodes, Minted, Successors, E.IsFresh, ActiveKids;
    var t := E.RedeemCode(env, s, id, clientId, g).state;
    FreshIds(env, s, g);
    RedeemedTables(env, s, id, clientId, g);
    CodeUsed(s.codes, id, s.now, sid);
    AccessTokenAdded(s.accessTokens, g.accessTokenId, t.accessTokens[g.accessTokenId].row, sid);
    if s.clients[clientId].HasGrantType("refresh_token") {
      RefreshTokenAdded(s.refreshTokens, g.refreshTokenId, t.refreshTokens[g.refreshTokenId].row, sid);
    }
  }

  lemma OtherSessionRotates(env: Env, s: State, id: Id, clientId: Id, scope: string, g: E.Generated, sid: Id)
    requires ForeignKeys(s) && id in s.refreshTokens && clientId in s.clients
    requires Did(env, s, Rotated(id, clientId, scope, g), E.Rotate(env, s, id, clientId, scope, g).state)
    requires s.refreshTokens[id].row.sessionId != sid
    ensures
      var t := E.Rotate(env, s, id, clientId, scope, g).state;
      && Minted(t.accessTokens, sid) == Minted(s.accessTokens, sid)
      && Successors(t.refreshTokens, sid) == Successors(s.refreshTokens, sid)
  {
    hide ForeignKeys, E.Rotate, Minted, Successors;
    var t := E.Rotate(env, s, id, clientId, scope, g).state;
    RotatedTables(env, s, id, clientId, scope, g);
    var token := s.refreshTokens[id].row;
    RevokingKeepsRows(s.accessTokens, s.refreshTokens, {token.accessTokenId}, {id}, s.now, sid);
    AccessTokenAdded(RevokeIn(s.accessTokens, {token.accessTokenId}, s.now), g.accessTokenId,
                     t.accessTokens[g.accessTokenId].row, sid);
    RefreshTokenAdded(RevokeIn(s.refreshTokens, {id}, s.now), g.refreshTokenId, t.refreshTokens[g.refreshTokenId].row, sid);
  }

  lemma RevokedSessionByEffect(env: Env, s: State, f: Effect, t: State, sid: Id)
    requires ForeignKeys(s) && Did(env, s, f, t) && sid in s.sessions && s.sessions[sid].Revoked?
    ensures sid in t.sessions && t.sessions[sid].Revoked?
    ensures |Minted(t.accessTokens, sid)| + |UnusedCodes(t.codes, sid)| == |Minted(s.accessTokens, sid)| + |UnusedCodes(s.codes, sid)|
    ensures UnusedCodes(t.codes, sid) <= UnusedCodes(s.codes, sid)
    ensures Successors(t.refreshTokens, sid) == Successors(s.refreshTokens, sid)
  {
    hide ForeignKeys, E.RedeemCode, E.Rotate, E.IsFresh, ActiveKids, UnusedCodes, Minted, Successors, Paired;
    match f
    case Redeemed(id, clientId, g) =>
      RedeemedTables(env, s, id, clientId, g);
      RevokedSessionByRedeem(env, s, id, clientId, g, sid);
    case Rotated(id, clientId, scope, g) =>
      RotatedTables(env, s, id, clientId, scope, g);
      OtherSessionRotates(env, s, id, clientId, scope, g, sid);
    case Issued(id, row) => CodeAdded(s.codes, id, row, sid);
    case Withdrawn(_, a, r) => RevokingKeepsRows(s.accessTokens, s.refreshTokens, a, r, s.now, sid);
    case _ =>
  }

  /**
   From the moment a session is revoked: every access token minted for it consumes one of the codes that were
   unused at that moment, so their number is bounded by those codes; no refresh in it succeeds.
   */
  lemma {:induction false} RevokedSessionResidue(env: Env, trace: seq<State>, events: seq<Event>, n: nat, sid: Id)
    requires IsContinuation(env, trace, events) && Invariant(trace[0]) && n < |trace|
    requires sid in trace[0].sessions && trace[0].sessions[sid].Revoked?
    ensures sid in trace[n].sessions && trace[n].sessions[sid].Revoked?
    ensures |Minted(trace[n].accessTokens, sid)| + |UnusedCodes(trace[n].codes, sid)|
              == |Minted(trace[0].accessTokens, sid)| + |UnusedCodes(trace[0].codes, sid)|
    ensures |Minted(trace[n].accessTokens, sid)| - |Minted(trace[0].accessTokens, sid)| <= |UnusedCodes(trace[0].codes, sid)|
    ensures UnusedCodes(trace[n].codes, sid) <= UnusedCodes(trace[0].codes, sid)
    ensures Successors(trace[n].refreshTokens, sid) == Successors(trace[0].refreshTokens, sid)
  {
    hide Invariant, Step, UnusedCodes, Minted, Successors;
    if n > 0 {
      RevokedSessionResidue(env, trace, events, n - 1, sid);
      InvariantAlways(env, trace, events, n - 1);
      assert Next(env, trace[n - 1], events[n - 1], trace[n]);
      RevokedSessionStep(env, trace[n - 1], events[n - 1], sid);
    }
  }

  /** No refresh of a revoked session succeeds, whoever presents the token. */
  lemma RevokedSessionRefusesRefresh(env: Env, s: State, r: E.RefreshRequest, g: E.Generated, sid: Id, x: Id)
    requires Invariant(s) && sid in s.sessions && s.sessions[sid].Revoked?
    requires x in s.refreshTokens && s.refreshTokens[x].row.sessionId == sid
    requires s.refreshTokens[x].row.tokenHash == env.sha256Hex(r.refreshToken)
    ensures E.GrantRefresh(env, s, r, g).reply.Failed?
    ensures E.GrantRefresh(env, s, r, g).state.refreshTokens.Keys == s.refreshTokens.Keys
  {
    hide PeopleLinked, SessionsLinked, ParentsSound, PairsSound, TenantsCohere, E.Rotate, E.AuthenticateClient;
    assert FindByTokenHash(s.refreshTokens, env.sha256Hex(r.refreshToken)) == Some(x);
  }
}
