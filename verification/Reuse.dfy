/**
 What presenting a spent token does: a revoked refresh token or a used code takes down every token of its
 session, nothing else, and the families it takes down never grow again.
 */
module Reuse {
  import opened Basics
  import opened Schema
  import opened Repository
  import opened Machine
  import opened Effects
  import opened Invariants
  import opened Families
  import E = Endpoints

  /** In `t` every token that session `sid` had in `s` is revoked, if not before then now;
   every other row, and every session row, is as in `s`. */
  ghost predicate SessionTokensDown(s: State, t: State, sid: Id) {
    && t.accessTokens.Keys == s.accessTokens.Keys && t.refreshTokens.Keys == s.refreshTokens.Keys
    && Evolved(s.accessTokens, t.accessTokens) && Evolved(s.refreshTokens, t.refreshTokens)
    && (forall x {:trigger t.accessTokens[x]} | x in s.accessTokens ::
          if s.accessTokens[x].row.sessionId == sid then t.accessTokens[x].Revoked? else t.accessTokens[x] == s.accessTokens[x])
    && (forall x {:trigger t.refreshTokens[x]} | x in s.refreshTokens ::
          if s.refreshTokens[x].row.sessionId == sid then t.refreshTokens[x].Revoked? else t.refreshTokens[x] == s.refreshTokens[x])
    && t.sessions == s.sessions && t.codes == s.codes && t.idTokens == s.idTokens && t.signed == s.signed && SameSetting(s, t)
  }

  lemma RevokedSessionTokens(s: State, sid: Id)
    ensures SessionTokensDown(s, E.RevokeSessionTokens(s, sid), sid)
  {
  }

  /** Presenting a revoked refresh token, authenticated as any client that may refresh. */
  lemma ReusedRefreshToken(env: Env, s: State, r: E.RefreshRequest, g: E.Generated, clientId: Id, x: Id)
    requires Integrity(s) && r.refreshToken != ""
    requires E.AuthenticateClient(env, s, r.credentials) == Some(clientId) && s.clients[clientId].HasGrantType("refresh_token")
    requires x in s.refreshTokens && s.refreshTokens[x].Revoked?
    requires s.refreshTokens[x].row.tokenHash == env.sha256Hex(r.refreshToken)
    ensures
      var o := E.GrantRefresh(env, s, r, g);
      && o.reply == E.Failed(E.InvalidGrant)
      && SessionTokensDown(s, o.state, s.refreshTokens[x].row.sessionId)
      && o.state.reuseDetectedAt == s.reuseDetectedAt[x := s.now]
  {
    hide ForeignKeys, E.Rotate, E.RefreshedScope, SessionTokensDown;
    assert FindByTokenHash(s.refreshTokens, env.sha256Hex(r.refreshToken)) == Some(x);
    var sid := s.refreshTokens[x].row.sessionId;
    assert E.JudgeRefresh(env, s, r) == E.Reused(x);
    RevokedSessionTokens(MarkReuseDetected(s, x), sid);
    DownAfterMark(s, x, sid);
  }

  lemma DownAfterMark(s: State, x: Id, sid: Id)
    requires SessionTokensDown(MarkReuseDetected(s, x), E.RevokeSessionTokens(MarkReuseDetected(s, x), sid), sid)
    ensures SessionTokensDown(s, E.RevokeSessionTokens(MarkReuseDetected(s, x), sid), sid)
  {
    hide E.RevokeSessionTokens;
  }

  /** Presenting a used code, authenticated as any active client. */
  lemma ReplayedCode(env: Env, s: State, r: E.CodeRequest, g: E.Generated, clientId: Id, c: Id)
    requires Integrity(s) && r.code != "" && E.AuthenticateClient(env, s, r.credentials) == Some(clientId)
    requires c in s.codes && s.codes[c].IsUsed() && s.codes[c].code == r.code
    ensures
      var o := E.GrantCode(env, s, r, g);
      && o.reply == E.Failed(E.InvalidGrant)
      && SessionTokensDown(s, o.state, s.codes[c].sessionId)
  {
    hide ForeignKeys, E.RedeemCode, SessionTokensDown;
    assert FindByCode(s.codes, r.code) == Some(c);
    assert E.JudgeCode(env, s, r) == E.CodeReplayed(c);
    RevokedSessionTokens(s, s.codes[c].sessionId);
  }

  /** Every family of the session is then dead, and stays exactly as it is on every continuation. */
  lemma TakenDownForGood(env: Env, s: State, sid: Id, trace: seq<State>, events: seq<Event>, n: nat, root: Id)
    requires IsContinuation(env, trace, events) && Invariant(trace[0]) && n < |trace|
    requires Invariant(s) && SessionTokensDown(s, trace[0], sid)
    requires root in s.refreshTokens && s.refreshTokens[root].row.parentId.None? && s.refreshTokens[root].row.sessionId == sid
    ensures DeadFamily(trace[n].refreshTokens, root)
    ensures Family(trace[n].refreshTokens, root) == Family(s.refreshTokens, root)
  {
    hide Integrity, TenantsCohere, LifetimesOk, KeysConsistent, PairsSound, Step, Family;
    DownIsDead(s, trace[0], sid, root);
    DeadFamilyForever(env, trace, events, root, n);
  }

  lemma DownIsDead(s: State, t: State, sid: Id, root: Id)
    requires ParentsSound(s.refreshTokens) && SessionTokensDown(s, t, sid)
    requires root in s.refreshTokens && s.refreshTokens[root].row.sessionId == sid
    ensures DeadFamily(t.refreshTokens, root) && Family(t.refreshTokens, root) == Family(s.refreshTokens, root)
  {
    hide ParentsSound;
    forall x, path | Leads(s.refreshTokens, path, root, x)
      ensures t.refreshTokens[x].Revoked? && Leads(t.refreshTokens, path, root, x)
    {
      LineageInOneSession(s.refreshTokens, path, |path| - 1);
      LineageSurvives(s.refreshTokens, t.refreshTokens, path);
    }
    forall x, path | Leads(t.refreshTokens, path, root, x)
      ensures Leads(s.refreshTokens, path, root, x)
    {
      LineageIsOld(s.refreshTokens, t.refreshTokens, path);
    }
    forall x | x in s.refreshTokens
      ensures x in Family(s.refreshTokens, root) <==> x in Family(t.refreshTokens, root)
    {
    }
  }

  lemma LineageIsOld(a: Tokens, b: Tokens, path: seq<Id>)
    requires Evolved(a, b) && a.Keys == b.Keys && IsLineage(b, path)
    ensures IsLineage(a, path)
  {
  }
}
