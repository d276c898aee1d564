/**
 Honest clients are served, whatever others do meanwhile: an issued code can be exchanged, and its refresh token rotated any
 number of times.
 */
module Completeness {
  import opened Basics
  import opened Schema
  import opened Repository
  import opened Machine
  import opened Effects
  import opened Invariants
  import opened Families
  import E = Endpoints

  // ---------- From authorize to tokens ----------

  /** Nothing but an exchange that presents it touches a code. */
  lemma CodeUntouched(env: Env, s: State, e: Event, id: Id)
    requires Invariant(s) && Enabled(env, s, e) && id in s.codes
    requires !(e.ExchangeCode? && e.exchange.code == s.codes[id].code)
    ensures id in Step(env, s, e).state.codes && Step(env, s, e).state.codes[id] == s.codes[id]
  {
    hide ForeignKeys, UniqueIndexes, Step, Enabled, ParentsSound, PairsSound, E.RedeemCode, E.Rotate, E.IsFresh, ActiveKids, Paired;
    var f := StepHasEffect(env, s, e);
    match f
    case Redeemed(used, clientId, g) => RedeemedTables(env, s, used, clientId, g);
    case Rotated(x, clientId, scope, g) => RotatedTables(env, s, x, clientId, scope, g);
    case _ =>
  }

  lemma {:induction false} CodeWaits(env: Env, trace: seq<State>, events: seq<Event>, id: Id, n: nat)
    requires IsContinuation(env, trace, events) && Invariant(trace[0]) && n < |trace| && id in trace[0].codes
    requires forall i | 0 <= i < n && events[i].ExchangeCode? :: events[i].exchange.code != trace[0].codes[id].code
    ensures id in trace[n].codes && trace[n].codes[id] == trace[0].codes[id]
  {
    hide Invariant, Step, Enabled;
    if n > 0 {
      CodeWaits(env, trace, events, id, n - 1);
      InvariantAlways(env, trace, events, n - 1);
      assert Next(env, trace[n - 1], events[n - 1], trace[n]);
      CodeUntouched(env, trace[n - 1], events[n - 1], id);
    }
  }

  /**
   After any continuation in which nobody presented it, a code that authorize issued is accepted from its client, with
   what the authorize request carried, up to and including the instant it expires.
   */
  lemma IssuedCodeIsExchangeable(env: Env, s: State, r: E.AuthorizeRequest, id: Id, code: string,
                                 trace: seq<State>, events: seq<Event>, n: nat, x: E.CodeRequest, g: E.Generated)
    requires Invariant(s) && Enabled(env, s, Authorize(r, id, code)) && code != ""
    requires E.Authorize(s, r, id, code).reply == E.CodeIssued(code)
    requires IsContinuation(env, trace, events) && trace[0] == E.Authorize(s, r, id, code).state && n < |trace|
    requires forall i | 0 <= i < n && events[i].ExchangeCode? :: events[i].exchange.code != code
    requires
      var v := E.JudgeAuthorize(s, r);
      && trace[n].now <= s.now + s.tenants[v.tenantId].authCodeLifetime * SECOND
      && E.AuthenticateClient(env, trace[n], x.credentials) == Some(v.clientId)
      && x.code == code && x.redirectUri == r.redirectUri
      && (r.codeChallenge != "" ==> x.verifier != "" && env.s256(x.verifier) == r.codeChallenge)
      && E.IsFresh(env, trace[n], g)
    ensures ForeignKeys(trace[n])
    ensures
      var clientId := E.JudgeAuthorize(s, r).clientId;
      && E.JudgeCode(env, trace[n], x) == E.CodeAccepted(id, clientId)
      && E.GrantCode(env, trace[n], x, g).reply.Tokens?
      && (trace[n].clients[clientId].HasGrantType("refresh_token") ==>
            E.GrantCode(env, trace[n], x, g).reply.refreshToken == g.refreshText)
  {
    hide Integrity, TenantsCohere, RotationSound, E.AuthenticateClient, E.IsFresh;
    hide Step, IsContinuation, ForeignKeys, LifetimesOk, KeysConsistent;
    var v := E.JudgeAuthorize(s, r);
    ForeignKeysOf(s);
    InvariantKept(env, s, Authorize(r, id, code));
    AuthorizeSteps(env, s, r, id, code);
    CodeIsStored(env, s, r, id, code);
    CodeWaits(env, trace, events, id, n);
    InvariantAlways(env, trace, events, n);
    ForeignKeysOf(trace[n]);
    AuthenticatedHasCredentials(env, trace[n], x.credentials);
    OnlyThatCode(trace[n], id, code);
    hide E.JudgeAuthorize, E.Authorize;
    assert E.JudgeCode(env, trace[n], x) == E.CodeAccepted(id, v.clientId);
    RedeemReplies(env, trace[n], id, v.clientId, g);
  }

  lemma AuthorizeSteps(env: Env, s: State, r: E.AuthorizeRequest, id: Id, code: string)
    requires ForeignKeys(s)
    ensures Step(env, s, Authorize(r, id, code)).state == E.Authorize(s, r, id, code).state
  {
    hide ForeignKeys, E.Authorize;
  }

  lemma CodeIsStored(env: Env, s: State, r: E.AuthorizeRequest, id: Id, code: string)
    requires E.Authorize(s, r, id, code).reply.CodeIssued?
    ensures
      var v := E.JudgeAuthorize(s, r);
      && v.Admitted? && id in E.Authorize(s, r, id, code).state.codes
      && var row := E.Authorize(s, r, id, code).state.codes[id];
         && row.code == code && row.clientId == v.clientId && row.redirectUri == r.redirectUri
         && row.challenge == E.NonEmpty(r.codeChallenge) && row.usedAt.None?
         && row.expiresAt == s.now + s.tenants[v.tenantId].authCodeLifetime * SECOND
  {
    hide E.JudgeAuthorize, E.CurrentSession;
  }

  lemma OnlyThatCode(s: State, id: Id, code: string)
    requires Integrity(s) && id in s.codes && s.codes[id].code == code
    ensures FindByCode(s.codes, code) == Some(id)
  {
    hide ForeignKeys;
  }

  lemma ForeignKeysOf(s: State)
    requires Integrity(s)
    ensures ForeignKeys(s)
  {
    hide ForeignKeys;
  }

  lemma AuthenticatedHasCredentials(env: Env, s: State, c: E.Credentials)
    requires E.AuthenticateClient(env, s, c).Some?
    ensures c.clientId != "" && c.secret != ""
  {
  }

  lemma RedeemReplies(env: Env, s: State, id: Id, clientId: Id, g: E.Generated)
    requires ForeignKeys(s) && id in s.codes && clientId in s.clients && ActiveKids(s.keys) != {}
    ensures
      var o := E.RedeemCode(env, s, id, clientId, g);
      && o.reply.Tokens?
      && (s.clients[clientId].HasGrantType("refresh_token") ==> o.reply.refreshToken == g.refreshText)
  {
    hide ForeignKeys, E.MintAccessToken, E.MintRefreshToken, E.MintIdToken;
  }

  // ---------- One refresh ----------

  /** Token `x`, whose text is `text`, can be refreshed now with these credentials. */
  ghost predicate Refreshable(env: Env, s: State, c: E.Credentials, x: Id, text: string)
    requires ForeignKeys(s)
  {
    && x in s.refreshTokens && s.refreshTokens[x].Live? && text != ""
    && s.refreshTokens[x].row.tokenHash == env.sha256Hex(text)
    && s.now <= s.refreshTokens[x].row.expiresAt
    && (var session := s.sessions[s.refreshTokens[x].row.sessionId];
        session.Live? && s.now <= session.row.expiresAt)
    && (var client := E.AuthenticateClient(env, s, c);
        client.Some? && s.clients[client.value].HasGrantType("refresh_token"))
  }

  /** How long the refresh tokens of a session's tenant live. */
  function RefreshLifetime(s: State, sid: Id): Time {
    if sid in s.sessions && s.sessions[sid].row.tenantId in s.tenants
    then s.tenants[s.sessions[sid].row.tenantId].refreshTokenLifetime * SECOND else 0
  }

  /** A refresh of a refreshable token succeeds: it spends the token and leaves its live child. */
  lemma RefreshSucceeds(env: Env, s: State, c: E.Credentials, x: Id, text: string, scope: string, g: E.Generated)
    requires Invariant(s) && Refreshable(env, s, c, x, text) && E.IsFresh(env, s, g)
    ensures
      var o := E.GrantRefresh(env, s, E.RefreshRequest(c, text, scope), g);
      var t := o.state;
      && o.reply.Tokens? && o.reply.refreshToken == g.refreshText
      && t.now == s.now && t.clients == s.clients && t.sessions == s.sessions
      && x in t.refreshTokens && t.refreshTokens[x].Revoked?
      && g.refreshTokenId !in s.refreshTokens && g.refreshTokenId in t.refreshTokens
      && var child := t.refreshTokens[g.refreshTokenId];
         && child.Live? && child.row.parentId == Some(x)
         && child.row.tokenHash == env.sha256Hex(g.refreshText)
         && child.row.sessionId == s.refreshTokens[x].row.sessionId
         && child.row.expiresAt == s.now + RefreshLifetime(s, child.row.sessionId)
  {
    hide TenantsCohere, RotationSound, E.Rotate, E.AuthenticateClient, KeysConsistent;
    var r := E.RefreshRequest(c, text, scope);
    assert FindByTokenHash(s.refreshTokens, env.sha256Hex(text)) == Some(x);
    AuthenticatedHasCredentials(env, s, c);
    var clientId := E.AuthenticateClient(env, s, c).value;
    assert E.JudgeRefresh(env, s, r) == E.Rotates(x, clientId);
    var token := s.refreshTokens[x].row;
    RotationPartner(s, x);
    RotatedTables(env, s, x, clientId, E.RefreshedScope(s, x, scope), g);
    RotateReply(env, s, x, clientId, E.RefreshedScope(s, x, scope), g);
  }

  lemma RotationPartner(s: State, x: Id)
    requires RotationSound(s.accessTokens, s.refreshTokens) && x in s.refreshTokens
    ensures s.refreshTokens[x].row.accessTokenId in s.accessTokens
  {
  }

  lemma RotateReply(env: Env, s: State, x: Id, clientId: Id, scope: string, g: E.Generated)
    requires ForeignKeys(s) && x in s.refreshTokens && clientId in s.clients && ActiveKids(s.keys) != {}
    ensures
      var o := E.Rotate(env, s, x, clientId, scope, g);
      o.reply.Tokens? && o.reply.accessToken == g.accessText && o.reply.refreshToken == g.refreshText && o.reply.scope == scope
  {
    hide ForeignKeys, E.MintAccessToken, E.MintRefreshToken;
  }

  /** The session is unrevoked, and the credentials are those of an active client that may refresh. */
  ghost predicate InOrder(env: Env, s: State, c: E.Credentials, sid: Id) {
    && sid in s.sessions && s.sessions[sid].Live?
    && var client := E.AuthenticateClient(env, s, c);
       client.Some? && s.clients[client.value].HasGrantType("refresh_token")
  }

  /** `path` is a lineage whose last token alone is live. */
  ghost predicate LiveTip(tokens: Tokens, path: seq<Id>) {
    && IsLineage(tokens, path)
    && tokens[path[|path| - 1]].Live?
    && forall i {:trigger path[i]} | 0 <= i < |path| - 1 :: tokens[path[i]].Revoked?
  }

  /** The live tip of the lineage is the token with this text, in this session, expiring at `deadline`. */
  ghost predicate TipIs(env: Env, s: State, path: seq<Id>, sid: Id, deadline: Time, text: string) {
    && |path| > 0 && LiveTip(s.refreshTokens, path) && text != ""
    && var tip := s.refreshTokens[path[|path| - 1]].row;
       tip.sessionId == sid && tip.expiresAt == deadline && tip.tokenHash == env.sha256Hex(text)
  }

  lemma TipAdvances(a: Tokens, b: Tokens, path: seq<Id>, child: Id)
    requires LiveTip(a, path) && Evolved(a, b)
    requires child in b && b[child].Live? && b[child].row.parentId == Some(path[|path| - 1])
    requires b[path[|path| - 1]].Revoked?
    ensures LiveTip(b, path + [child])
  {
    LineageSurvives(a, b, path);
  }

  /** Authentication looks at the clients only. */
  lemma SameClientsSameCredentials(env: Env, s: State, t: State, c: E.Credentials)
    requires ConfigUnique(s.tenants, s.clients, s.users) && t.clients == s.clients
    ensures E.AuthenticateClient(env, t, c) == E.AuthenticateClient(env, s, c)
  {
    var a, b := FindClientByClientId(s, c.clientId), FindClientByClientId(t, c.clientId);
    assert a.Some? ==> s.clients[a.value].clientId == c.clientId;
    assert b.Some? ==> s.clients[b.value].clientId == c.clientId;
  }

  lemma ClientsUnique(s: State)
    requires Integrity(s)
    ensures ConfigUnique(s.tenants, s.clients, s.users)
  {
  }

  lemma TipRow(s: State, path: seq<Id>)
    requires |path| > 0 && LiveTip(s.refreshTokens, path)
    ensures path[|path| - 1] in s.refreshTokens
  {
  }

  /** The exchange of a code by a client that may refresh leaves a live root token. */
  lemma ExchangeLeavesRoot(env: Env, s: State, id: Id, clientId: Id, g: E.Generated)
    requires ForeignKeys(s) && id in s.codes && clientId in s.clients && ActiveKids(s.keys) != {} && E.IsFresh(env, s, g)
    requires s.clients[clientId].HasGrantType("refresh_token") && g.refreshText != ""
    ensures
      var t := E.RedeemCode(env, s, id, clientId, g).state;
      var sid := s.codes[id].sessionId;
      TipIs(env, t, [g.refreshTokenId], sid, s.now + RefreshLifetime(s, sid), g.refreshText)
  {
    hide E.RedeemCode, E.IsFresh;
    RedeemedTables(env, s, id, clientId, g);
  }

  lemma CodeHasSession(s: State, id: Id)
    requires ForeignKeys(s) && id in s.codes
    ensures s.codes[id].sessionId in s.sessions
  {
  }

  // ---------- The client's view of a run ----------

  /** The token a client would present next: its row, its text, and when it expires. */
  datatype Tip = Tip(id: Id, text: string, deadline: Time)

  /** The client refreshes with its newest token. */
  predicate IsRound(e: Event, c: E.Credentials, tip: Tip) {
    e.Refresh? && e.refresh.credentials == c && e.refresh.refreshToken == tip.text
  }

  function NextTip(s: State, e: Event, c: E.Credentials, sid: Id, tip: Tip): Tip {
    if IsRound(e, c, tip) then Tip(e.generated.refreshTokenId, e.generated.refreshText, s.now + RefreshLifetime(s, sid)) else tip
  }

  /** The newest token after n events. */
  function TipAt(trace: seq<State>, events: seq<Event>, n: nat, c: E.Credentials, sid: Id, tip: Tip): Tip
    requires n <= |events| < |trace|
  {
    if n == 0 then tip else NextTip(trace[n - 1], events[n - 1], c, sid, TipAt(trace, events, n - 1, c, sid, tip))
  }

  function MintedBy(e: Event, c: E.Credentials, tip: Tip): seq<Id> {
    if IsRound(e, c, tip) then [e.generated.refreshTokenId] else []
  }

  /** The tokens the first n events' rounds minted, in order. */
  function Minted(trace: seq<State>, events: seq<Event>, n: nat, c: E.Credentials, sid: Id, tip: Tip): seq<Id>
    requires n <= |events| < |trace|
  {
    if n == 0 then []
    else
      Minted(trace, events, n - 1, c, sid, tip) + MintedBy(events[n - 1], c, TipAt(trace, events, n - 1, c, sid, tip))
  }

  /** The round comes no later than the token and the session expire. */
  predicate InTime(s: State, e: Event, sid: Id, tip: Tip)
    requires e.Refresh?
  {
    s.now <= tip.deadline && sid in s.sessions && s.now <= s.sessions[sid].row.expiresAt && e.generated.refreshText != ""
  }

  /**
   What can spoil the client's next refresh: revoking its session or its newest token, anyone presenting that token, anyone
   presenting a revoked refresh token or a used code of the session, and changing the client so that it is no longer
   active, may no longer refresh, or has another secret. Everything else, lifetime edits and key rotations included, is harmless.
   */
  ghost predicate Disturbs(env: Env, s: State, e: Event, c: E.Credentials, sid: Id, tip: Tip) {
    match e
    case RevokeAll => true
    case RevokeTenant(id) => sid in s.sessions && s.sessions[sid].row.tenantId == id
    case RevokeUser(id) => sid in s.sessions && s.sessions[sid].row.userId == id
    case Revoke(r) => env.sha256Hex(r.token) == env.sha256Hex(tip.text)
    case Refresh(r, _) =>
      || env.sha256Hex(r.refreshToken) == env.sha256Hex(tip.text)
      || exists x {:trigger s.refreshTokens[x].row.tokenHash} :: x in s.refreshTokens && s.refreshTokens[x].Revoked?
           && s.refreshTokens[x].row.tokenHash == env.sha256Hex(r.refreshToken) && s.refreshTokens[x].row.sessionId == sid
    case ExchangeCode(r, _) =>
      exists x {:trigger s.codes[x].code} :: x in s.codes && s.codes[x].IsUsed() && s.codes[x].code == r.code && s.codes[x].sessionId == sid
    case SaveClient(id, client) =>
      && id in s.clients && s.clients[id].clientId == c.clientId
      && !(client.IsActive() && client.HasGrantType("refresh_token") && env.verifyPassword(c.secret, client.secretHash) == Ok(true))
    case _ => false
  }

  /** Every round comes in time, and no other event spoils the next one. */
  ghost predicate Undisturbed(env: Env, trace: seq<State>, events: seq<Event>, c: E.Credentials, sid: Id, tip: Tip)
    requires |trace| == |events| + 1
  {
    forall i | 0 <= i < |events| :: Harmless(env, trace[i], events[i], c, sid, TipAt(trace, events, i, c, sid, tip))
  }

  ghost predicate Harmless(env: Env, s: State, e: Event, c: E.Credentials, sid: Id, tip: Tip) {
    if IsRound(e, c, tip) then InTime(s, e, sid, tip) else !Disturbs(env, s, e, c, sid, tip)
  }

  /** If the event is a round, it is answered with tokens. */
  ghost predicate Served(env: Env, s: State, e: Event, c: E.Credentials, tip: Tip) {
    IsRound(e, c, tip) ==>
      && ForeignKeys(s) && Step(env, s, e).reply.Tokens?
      && Step(env, s, e).reply.refreshToken == e.generated.refreshText
  }

  /** The client can go on: session and client are in order, and its newest token is the live tip of its lineage. */
  ghost predicate Holds(env: Env, s: State, path: seq<Id>, c: E.Credentials, sid: Id, tip: Tip) {
    && InOrder(env, s, c, sid) && TipIs(env, s, path, sid, tip.deadline, tip.text) && path[|path| - 1] == tip.id
  }

  // ---------- A round ----------

  lemma TipIsRefreshable(env: Env, s: State, c: E.Credentials, sid: Id, tip: Tip, path: seq<Id>)
    requires Integrity(s) && Holds(env, s, path, c, sid, tip)
    requires s.now <= tip.deadline && s.now <= s.sessions[sid].row.expiresAt
    ensures ForeignKeys(s) && Refreshable(env, s, c, tip.id, tip.text)
  {
    hide E.AuthenticateClient;
  }

  /** However tenants are edited, the token of a round is good for some time. */
  lemma NewTipHasTime(s: State, e: Event, c: E.Credentials, sid: Id, tip: Tip)
    requires Invariant(s) && sid in s.sessions && IsRound(e, c, tip)
    ensures s.now < NextTip(s, e, c, sid, tip).deadline
  {
    hide UniqueIndexes, RotationSound, TenantsCohere, KeysConsistent;
  }

  /** A timely round succeeds and extends the lineage by its live tip. */
  lemma RoundAdvances(env: Env, s: State, e: Event, c: E.Credentials, sid: Id, tip: Tip, path: seq<Id>)
    requires Invariant(s) && ForeignKeys(s) && Enabled(env, s, e) && Holds(env, s, path, c, sid, tip)
    requires IsRound(e, c, tip) && InTime(s, e, sid, tip)
    ensures
      var o := Step(env, s, e);
      && o.reply.Tokens? && o.reply.refreshToken == e.generated.refreshText
      && Holds(env, o.state, path + [e.generated.refreshTokenId], c, sid, NextTip(s, e, c, sid, tip))
  {
    hide Integrity, TenantsCohere, RotationSound, LifetimesOk, KeysConsistent, E.GrantRefresh, E.IsFresh, Refreshable, Evolved, ForeignKeys, LiveTip;
    hide E.AuthenticateClient;
    TipIsRefreshable(env, s, c, sid, tip, path);
    RefreshSucceeds(env, s, c, tip.id, tip.text, e.refresh.scope, e.generated);
    StepGrows(env, s, e);
    var after := Step(env, s, e).state;
    TipAdvances(s.refreshTokens, after.refreshTokens, path, e.generated.refreshTokenId);
    ClientsUnique(s);
    SameClientsSameCredentials(env, s, after, c);
    TipRow(s, path);
  }

  // ---------- Any other event ----------

  /** Session `sid` and refresh token `x` are as they were. */
  ghost predicate Spared(s: State, t: State, sid: Id, x: Id) {
    && sid in s.sessions && sid in t.sessions && t.sessions[sid] == s.sessions[sid]
    && x in s.refreshTokens && x in t.refreshTokens && t.refreshTokens[x] == s.refreshTokens[x]
  }

  lemma RevocationSpares(s: State, which: set<Id>, sid: Id, x: Id)
    requires sid in s.sessions && x in s.refreshTokens && s.refreshTokens[x].row.sessionId == sid && sid !in which
    ensures Spared(s, E.RevokeEverything(s, which).state, sid, x)
  {
  }

  lemma TakedownSpares(s: State, other: Id, sid: Id, x: Id)
    requires sid in s.sessions && x in s.refreshTokens && s.refreshTokens[x].row.sessionId == sid && sid != other
    ensures Spared(s, E.RevokeSessionTokens(s, other), sid, x)
  {
  }

  lemma ExchangeSpares(env: Env, s: State, r: E.CodeRequest, g: E.Generated, sid: Id, x: Id)
    requires ForeignKeys(s) && ActiveKids(s.keys) != {} && E.IsFresh(env, s, g)
    requires sid in s.sessions && x in s.refreshTokens && s.refreshTokens[x].row.sessionId == sid
    requires forall k {:trigger s.codes[k].code} | k in s.codes && s.codes[k].IsUsed() && s.codes[k].code == r.code ::
               s.codes[k].sessionId != sid
    ensures Spared(s, E.GrantCode(env, s, r, g).state, sid, x)
  {
    hide ForeignKeys, ActiveKids, E.IsFresh, E.RedeemCode, E.RevokeSessionTokens, E.AuthenticateClient;
    FreshIds(env, s, g);
    match E.JudgeCode(env, s, r)
    case CodeRefused(_) =>
    case CodeReplayed(codeId) => TakedownSpares(s, s.codes[codeId].sessionId, sid, x);
    case CodeAccepted(codeId, clientId) => RedeemedTables(env, s, codeId, clientId, g);
  }

  lemma RefreshSpares(env: Env, s: State, r: E.RefreshRequest, g: E.Generated, sid: Id, x: Id)
    requires ForeignKeys(s) && ActiveKids(s.keys) != {} && E.IsFresh(env, s, g)
    requires sid in s.sessions && x in s.refreshTokens && s.refreshTokens[x].row.sessionId == sid
    requires env.sha256Hex(r.refreshToken) != s.refreshTokens[x].row.tokenHash
    requires forall k {:trigger s.refreshTokens[k].row.tokenHash} | k in s.refreshTokens && s.refreshTokens[k].Revoked?
               && s.refreshTokens[k].row.tokenHash == env.sha256Hex(r.refreshToken) :: s.refreshTokens[k].row.sessionId != sid
    ensures Spared(s, E.GrantRefresh(env, s, r, g).state, sid, x)
  {
    hide ForeignKeys, ActiveKids, E.IsFresh, E.Rotate, E.RevokeSessionTokens, E.AuthenticateClient, E.RefreshedScope;
    FreshIds(env, s, g);
    var v := JudgedRefresh(env, s, r);
    match v
    case RefreshRefused(_) =>
    case Reused(k) => TakedownSpares(MarkReuseDetected(s, k), s.refreshTokens[k].row.sessionId, sid, x);
    case Rotates(k, clientId) => RotatedTables(env, s, k, clientId, E.RefreshedScope(s, k, r.scope), g);
  }

  lemma JudgedRefresh(env: Env, s: State, r: E.RefreshRequest) returns (v: E.RefreshVerdict)
    requires ForeignKeys(s)
    ensures v == E.JudgeRefresh(env, s, r)
    ensures v.Reused? ==> s.refreshTokens[v.tokenId].Revoked? && s.refreshTokens[v.tokenId].row.tokenHash == env.sha256Hex(r.refreshToken)
    ensures v.Rotates? ==>
      s.refreshTokens[v.tokenId].row.tokenHash == env.sha256Hex(r.refreshToken)
      && s.refreshTokens[v.tokenId].row.accessTokenId in s.accessTokens
  {
    hide E.AuthenticateClient, PeopleLinked, SessionsLinked, CodesLinked, AccessTokensLinked, IdTokensLinked;
    v := E.JudgeRefresh(env, s, r);
  }

  lemma RevokeSpares(env: Env, s: State, r: E.RevokeRequest, sid: Id, x: Id)
    requires sid in s.sessions && x in s.refreshTokens && env.sha256Hex(r.token) != s.refreshTokens[x].row.tokenHash
    ensures Spared(s, E.Revoke(env, s, r).state, sid, x)
  {
    hide E.AuthenticateClient, E.RevokeAsAccessToken, E.RevokeAsRefreshToken;
    RevokeAsAccessSpares(s, r.token, sid, x);
    RevokeAsRefreshSpares(env, s, r.token, sid, x);
    RevokeAsAccessSpares(E.RevokeAsRefreshToken(env, s, r.token).state, r.token, sid, x);
    RevokeAsRefreshSpares(env, E.RevokeAsAccessToken(s, r.token).state, r.token, sid, x);
  }

  lemma RevokeAsAccessSpares(s: State, token: string, sid: Id, x: Id)
    requires sid in s.sessions && x in s.refreshTokens
    ensures Spared(s, E.RevokeAsAccessToken(s, token).state, sid, x)
  {
    hide E.Validates;
  }

  lemma RevokeAsRefreshSpares(env: Env, s: State, token: string, sid: Id, x: Id)
    requires sid in s.sessions && x in s.refreshTokens && env.sha256Hex(token) != s.refreshTokens[x].row.tokenHash
    ensures Spared(s, E.RevokeAsRefreshToken(env, s, token).state, sid, x)
  {
  }

  lemma LoginSpares(env: Env, s: State, e: Event, sid: Id, x: Id)
    requires ForeignKeys(s) && Enabled(env, s, e) && (e.Login? || e.Authorize?)
    requires sid in s.sessions && x in s.refreshTokens
    ensures Spared(s, Step(env, s, e).state, sid, x)
  {
    hide ForeignKeys, E.Login, E.Authorize;
    match e
    case Login(tenantCode, loginId, password, id) => var f := LoginEffect(env, s, tenantCode, loginId, password, id);
    case Authorize(r, id, code) => var f := AuthorizeEffect(env, s, r, id, code);
  }

  /** An event that does not disturb leaves the session and the newest token as they are. */
  lemma TipSurvives(env: Env, s: State, e: Event, c: E.Credentials, sid: Id, tip: Tip)
    requires ForeignKeys(s) && ActiveKids(s.keys) != {} && Enabled(env, s, e) && !Disturbs(env, s, e, c, sid, tip)
    requires sid in s.sessions && tip.id in s.refreshTokens
    requires s.refreshTokens[tip.id].row.sessionId == sid && s.refreshTokens[tip.id].row.tokenHash == env.sha256Hex(tip.text)
    ensures Spared(s, Step(env, s, e).state, sid, tip.id)
  {
    hide ForeignKeys, ActiveKids, E.IsFresh, Spared;
    hide E.Login, E.Authorize, E.GrantCode, E.GrantRefresh, E.Revoke, E.RevokeEverything;
    if IsSetting(e) {
      SettingSpares(env, s, e, sid, tip.id);
    } else {
      match e
      case Login(_, _, _, _) => LoginSpares(env, s, e, sid, tip.id);
      case Authorize(_, _, _) => LoginSpares(env, s, e, sid, tip.id);
      case ExchangeCode(r, g) => ExchangeSpares(env, s, r, g, sid, tip.id);
      case Refresh(r, g) => RefreshSpares(env, s, r, g, sid, tip.id);
      case Revoke(r) => RevokeSpares(env, s, r, sid, tip.id);
      case RevokeTenant(id) => RevocationSpares(s, SessionsOfTenant(s, id), sid, tip.id);
      case RevokeUser(id) => RevocationSpares(s, SessionsOfUser(s, id), sid, tip.id);
    }
  }

  lemma SettingSpares(env: Env, s: State, e: Event, sid: Id, x: Id)
    requires ForeignKeys(s) && IsSetting(e) && sid in s.sessions && x in s.refreshTokens
    ensures Spared(s, Step(env, s, e).state, sid, x)
  {
    hide ForeignKeys, Step;
    SettingIsElsewhere(env, s, e);
  }

  /** Only client administration changes clients. */
  lemma ClientsStay(env: Env, s: State, e: Event)
    requires Invariant(s) && ForeignKeys(s) && Enabled(env, s, e) && !e.SaveClient?
    ensures Step(env, s, e).state.clients == s.clients
  {
    hide ForeignKeys, UniqueIndexes, ParentsSound, PairsSound, Did, Enabled, Step;
    if IsSetting(e) {
      SettingKeepsClients(env, s, e);
    } else {
      var f := StepHasEffect(env, s, e);
      if !f.Elsewhere? { EffectKeepsSetting(env, s, f, Step(env, s, e).state); }
    }
  }

  lemma SettingKeepsClients(env: Env, s: State, e: Event)
    requires ForeignKeys(s) && IsSetting(e) && !e.SaveClient?
    ensures Step(env, s, e).state.clients == s.clients
  {
    hide ForeignKeys, E.RotateKey, E.DeactivateKey, E.CreateTenant, E.UpdateTenant, E.UserInfo;
    match e
    case RotateKey(kid, id) => KeyStepFrame(s, kid, id);
    case DeactivateKey(kid) => KeyStepFrame(s, kid, 0);
    case CreateTenant(id, code, l, ok) => TenantStepFrame(s, id, code, l, ok);
    case UpdateTenant(id, l, ok) => TenantStepFrame(s, id, "", l, ok);
    case _ =>
  }

  lemma SavedClientStillServed(env: Env, s: State, id: Id, client: Client, c: E.Credentials, sid: Id, tip: Tip)
    requires CanSaveClient(s, id, client) && ConfigUnique(s.tenants, s.clients, s.users)
    requires InOrder(env, s, c, sid) && !Disturbs(env, s, SaveClient(id, client), c, sid, tip)
    ensures
      var t := s.(clients := s.clients[id := client]);
      var found := E.AuthenticateClient(env, t, c);
      found.Some? && t.clients[found.value].HasGrantType("refresh_token")
  {
    var t := s.(clients := s.clients[id := client]);
    var a := FindClientByClientId(s, c.clientId).value;
    assert t.clients[a].clientId == c.clientId;
    var b := FindClientByClientId(t, c.clientId).value;
    assert t.clients[b].clientId == c.clientId;
    assert a == b by {
      if b != id { assert s.clients[b].clientId == c.clientId; }
    }
  }

  /** An event that does not disturb leaves the client able to go on with the same token. */
  lemma OtherEventHolds(env: Env, s: State, e: Event, c: E.Credentials, sid: Id, tip: Tip, path: seq<Id>)
    requires Invariant(s) && ForeignKeys(s) && Enabled(env, s, e) && Holds(env, s, path, c, sid, tip)
    requires !Disturbs(env, s, e, c, sid, tip)
    ensures Holds(env, Step(env, s, e).state, path, c, sid, tip)
  {
    hide Integrity, TenantsCohere, RotationSound, LifetimesOk, KeysConsistent, ForeignKeys, Enabled, Step, Disturbs, Evolved;
    hide E.AuthenticateClient;
    var t := Step(env, s, e).state;
    TipSurvives(env, s, e, c, sid, tip);
    StepGrows(env, s, e);
    LineageSurvives(s.refreshTokens, t.refreshTokens, path);
    EarlierStayRevoked(s.refreshTokens, t.refreshTokens, path);
    ClientsUnique(s);
    if e.SaveClient? {
      SavedClientStillServed(env, s, e.clientId, e.client, c, sid, tip) by { SavingIsChecked(env, s, e); }
      SavingIsChecked(env, s, e);
    } else {
      ClientsStay(env, s, e);
      SameClientsSameCredentials(env, s, t, c);
    }
  }

  lemma SavingIsChecked(env: Env, s: State, e: Event)
    requires ForeignKeys(s) && e.SaveClient? && Enabled(env, s, e)
    ensures CanSaveClient(s, e.clientId, e.client)
    ensures Step(env, s, e).state == s.(clients := s.clients[e.clientId := e.client])
    ensures e == SaveClient(e.clientId, e.client)
  {
    hide ForeignKeys;
  }

  lemma EarlierStayRevoked(a: Tokens, b: Tokens, path: seq<Id>)
    requires |path| > 0 && LiveTip(a, path) && Evolved(a, b)
    ensures forall i {:trigger path[i]} | 0 <= i < |path| - 1 :: path[i] in b && b[path[i]].Revoked?
  {
  }

  /** An event of an undisturbed run, round or not. */
  lemma EitherHolds(env: Env, s: State, e: Event, c: E.Credentials, sid: Id, tip: Tip, path: seq<Id>)
    requires Invariant(s) && ForeignKeys(s) && Enabled(env, s, e) && Holds(env, s, path, c, sid, tip)
    requires Harmless(env, s, e, c, sid, tip)
    ensures Holds(env, Step(env, s, e).state, path + MintedBy(e, c, tip), c, sid, NextTip(s, e, c, sid, tip))
    ensures Served(env, s, e, c, tip)
  {
    hide Invariant, Step, Enabled, ForeignKeys, Holds, Disturbs, InTime;
    if IsRound(e, c, tip) {
      RoundAdvances(env, s, e, c, sid, tip, path);
    } else {
      OtherEventHolds(env, s, e, c, sid, tip, path);
      assert path + MintedBy(e, c, tip) == path;
    }
  }

  // ---------- Whole runs ----------

  /**
   In any continuation that does not disturb the client, whatever else happens between, every refresh that presents the
   newest token in time succeeds, and the lineage grows by exactly the tokens minted, of which only the last is live.
   */
  lemma {:induction false} RefreshesSucceed(env: Env, trace: seq<State>, events: seq<Event>, n: nat,
                                            c: E.Credentials, sid: Id, tip: Tip, path: seq<Id>)
    requires IsContinuation(env, trace, events) && Invariant(trace[0]) && n < |trace|
    requires Holds(env, trace[0], path, c, sid, tip) && Undisturbed(env, trace, events, c, sid, tip)
    ensures Holds(env, trace[n], path + Minted(trace, events, n, c, sid, tip), c, sid, TipAt(trace, events, n, c, sid, tip))
    ensures forall i | 0 <= i < n :: Served(env, trace[i], events[i], c, TipAt(trace, events, i, c, sid, tip))
  {
    hide Invariant, Step, Next, IsContinuation, Undisturbed, ForeignKeys, Holds, Harmless, Served, MintedBy, NextTip;
    ContinuationLength(env, trace, events);
    if n == 0 {
      assert path + Minted(trace, events, n, c, sid, tip) == path;
    } else {
      var s, e, at := trace[n - 1], events[n - 1], TipAt(trace, events, n - 1, c, sid, tip);
      var longer := path + Minted(trace, events, n - 1, c, sid, tip);
      RefreshesSucceed(env, trace, events, n - 1, c, sid, tip, path);
      InvariantAlways(env, trace, events, n - 1);
      UndisturbedAt(env, trace, events, n - 1, c, sid, tip);
      EitherHolds(env, s, e, c, sid, at, longer);
      assert path + Minted(trace, events, n, c, sid, tip) == longer + MintedBy(e, c, at);
    }
  }

  lemma ContinuationLength(env: Env, trace: seq<State>, events: seq<Event>)
    requires IsContinuation(env, trace, events)
    ensures |trace| == |events| + 1
  {
  }

  lemma UndisturbedAt(env: Env, trace: seq<State>, events: seq<Event>, i: nat, c: E.Credentials, sid: Id, tip: Tip)
    requires IsContinuation(env, trace, events) && Undisturbed(env, trace, events, c, sid, tip) && i < |events|
    ensures ForeignKeys(trace[i]) && Enabled(env, trace[i], events[i]) && trace[i + 1] == Step(env, trace[i], events[i]).state
    ensures Harmless(env, trace[i], events[i], c, sid, TipAt(trace, events, i, c, sid, tip))
  {
    hide ForeignKeys, Enabled, Step, Harmless;
    assert Next(env, trace[i], events[i], trace[i + 1]);
  }

  /** The family is then the root and the tokens minted since, only the last of them live. */
  lemma FamilyOfRefreshes(env: Env, trace: seq<State>, events: seq<Event>, n: nat, c: E.Credentials, sid: Id, tip: Tip)
    requires IsContinuation(env, trace, events) && Invariant(trace[0]) && n < |trace|
    requires Holds(env, trace[0], [tip.id], c, sid, tip) && Undisturbed(env, trace, events, c, sid, tip)
    ensures
      var path := [tip.id] + Minted(trace, events, n, c, sid, tip);
      && LiveTip(trace[n].refreshTokens, path) && IsSpine(trace[n].refreshTokens, tip.id, path)
      && |Family(trace[n].refreshTokens, tip.id)| == |Minted(trace, events, n, c, sid, tip)| + 1
  {
    hide Invariant, Undisturbed, IsContinuation, Minted, TipAt, Holds, LiveTip, IsSpine, Family, ParentsSound, Served;
    ContinuationLength(env, trace, events);
    RefreshesSucceed(env, trace, events, n, c, sid, tip, [tip.id]);
    InvariantAlways(env, trace, events, n);
    ParentsAreSound(trace[n]);
    var path := [tip.id] + Minted(trace, events, n, c, sid, tip);
    TipIsLive(env, trace[n], path, c, sid, TipAt(trace, events, n, c, sid, tip));
    FamilyOfLiveTip(trace[n].refreshTokens, path);
  }

  lemma TipIsLive(env: Env, s: State, path: seq<Id>, c: E.Credentials, sid: Id, tip: Tip)
    requires Holds(env, s, path, c, sid, tip)
    ensures LiveTip(s.refreshTokens, path)
  {
    hide LiveTip, InOrder;
  }

  /** A lineage with a live tip is its whole family, and its length is the family's size. */
  lemma FamilyOfLiveTip(tokens: Tokens, path: seq<Id>)
    requires ParentsSound(tokens) && |path| > 0 && LiveTip(tokens, path)
    ensures IsSpine(tokens, path[0], path) && |Family(tokens, path[0])| == |path|
  {
    LiveEndIsFamily(tokens, path);
    hide ParentsSound, Family;
    forall i, j | 0 <= i < j < |path|
      ensures path[i] != path[j]
    {
      LineageIsAcyclic(tokens, path, i, j);
    }
    DistinctCount(path);
  }

  lemma ParentsAreSound(s: State)
    requires Invariant(s)
    ensures ParentsSound(s.refreshTokens)
  {
    hide Integrity, ParentsSound;
  }

  /**
   From an exchangeable code to a family: the exchange succeeds, and in every continuation that does not disturb the client
   all n refreshes that present the newest token in time succeed and leave a family of n + 1 tokens with only the last live.
   */
  lemma FromCodeToFamily(env: Env, s: State, x: E.CodeRequest, g: E.Generated, trace: seq<State>, events: seq<Event>, n: nat)
    requires Invariant(s) && ForeignKeys(s) && E.IsFresh(env, s, g) && g.refreshText != ""
    requires E.JudgeCode(env, s, x).CodeAccepted? && s.clients[E.JudgeCode(env, s, x).clientId].HasGrantType("refresh_token")
    requires s.sessions[s.codes[E.JudgeCode(env, s, x).codeId].sessionId].Live?
    requires IsContinuation(env, trace, events) && trace[0] == E.GrantCode(env, s, x, g).state && n < |trace|
    requires
      var sid := s.codes[E.JudgeCode(env, s, x).codeId].sessionId;
      Undisturbed(env, trace, events, x.credentials, sid, Tip(g.refreshTokenId, g.refreshText, s.now + RefreshLifetime(s, sid)))
    ensures E.GrantCode(env, s, x, g).reply.Tokens? && E.GrantCode(env, s, x, g).reply.refreshToken == g.refreshText
    ensures
      var sid := s.codes[E.JudgeCode(env, s, x).codeId].sessionId;
      var tip := Tip(g.refreshTokenId, g.refreshText, s.now + RefreshLifetime(s, sid));
      var minted := Minted(trace, events, n, x.credentials, sid, tip);
      && (forall i | 0 <= i < n :: Served(env, trace[i], events[i], x.credentials, TipAt(trace, events, i, x.credentials, sid, tip)))
      && |Family(trace[n].refreshTokens, g.refreshTokenId)| == |minted| + 1
      && LiveTip(trace[n].refreshTokens, [g.refreshTokenId] + minted)
  {
    var v := E.JudgeCode(env, s, x);
    var sid := s.codes[v.codeId].sessionId;
    var tip := Tip(g.refreshTokenId, g.refreshText, s.now + RefreshLifetime(s, sid));
    ExchangeStarts(env, s, x, g);
    hide Invariant, ForeignKeys, E.IsFresh, E.JudgeCode, E.GrantCode, Undisturbed, IsContinuation, Holds, Step, Family, LiveTip, Minted, TipAt, IsRound, IsSpine;
    RefreshesSucceed(env, trace, events, n, x.credentials, sid, tip, [tip.id]);
    FamilyOfRefreshes(env, trace, events, n, x.credentials, sid, tip);
  }

  /** After the exchange the client can go on from its root token. */
  lemma ExchangeStarts(env: Env, s: State, x: E.CodeRequest, g: E.Generated)
    requires Invariant(s) && ForeignKeys(s) && E.IsFresh(env, s, g) && g.refreshText != ""
    requires E.JudgeCode(env, s, x).CodeAccepted? && s.clients[E.JudgeCode(env, s, x).clientId].HasGrantType("refresh_token")
    requires s.sessions[s.codes[E.JudgeCode(env, s, x).codeId].sessionId].Live?
    ensures
      var o := E.GrantCode(env, s, x, g);
      var sid := s.codes[E.JudgeCode(env, s, x).codeId].sessionId;
      && o.reply.Tokens? && o.reply.refreshToken == g.refreshText
      && Invariant(o.state)
      && Holds(env, o.state, [g.refreshTokenId], x.credentials, sid,
               Tip(g.refreshTokenId, g.refreshText, s.now + RefreshLifetime(s, sid)))
  {
    hide Integrity, TenantsCohere, LifetimesOk, KeysConsistent, RotationSound, ForeignKeys, TipIs, LiveTip;
    hide E.IsFresh, E.AuthenticateClient, E.RedeemCode;
    var v := E.JudgeCode(env, s, x);
    var t := E.GrantCode(env, s, x, g).state;
    InvariantKept(env, s, ExchangeCode(x, g));
    ExchangeLeavesRoot(env, s, v.codeId, v.clientId, g);
    RedeemReplies(env, s, v.codeId, v.clientId, g);
    RedeemedTables(env, s, v.codeId, v.clientId, g);
    ClientsUnique(s);
    SameClientsSameCredentials(env, s, t, x.credentials);
    assert E.AuthenticateClient(env, s, x.credentials) == Some(v.clientId);
    CodeHasSession(s, v.codeId);
  }

  lemma {:induction false} DistinctCount(path: seq<Id>)
    requires forall i, j | 0 <= i < j < |path| :: path[i] != path[j]
    ensures |set i | 0 <= i < |path| :: path[i]| == |path|
  {
    if path != [] {
      var front, last := path[..|path| - 1], path[|path| - 1];
      DistinctCount(front);
      assert (set i | 0 <= i < |path| :: path[i]) == (set i | 0 <= i < |front| :: front[i]) + {last};
    }
  }
}
