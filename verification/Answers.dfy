/**
 What is answered: the tokens of an exchange and of a refresh field by field, the scope along a lineage, the claims of
 userinfo, and what administration writes. Everything is said about the rows of the tables and the request.
 */
module Answers {
  import opened Basics
  import opened Schema
  import opened Repository
  import opened Machine
  import opened Effects
  import opened Invariants
  import opened Evolution
  import opened Families
  import opened Acceptance
  import opened Admission
  import I = Incidents
  import E = Endpoints
  import Text

  // ---------- The tokens of an exchange and of a refresh ----------

  /** Active, and no active key is newer; among equally new ones the smallest id. */
  ghost predicate IsNewestActive(keys: map<string, SignKey>, kid: string) {
    && kid in keys && keys[kid].active
    && forall k | k in keys && keys[k].active ::
         keys[k].createdAt < keys[kid].createdAt || (keys[k].createdAt == keys[kid].createdAt && keys[kid].id <= keys[k].id)
  }

  lemma SigningKey(s: State)
    requires ActiveKids(s.keys) != {}
    ensures FindActive(s.keys).Some? && IsNewestActive(s.keys, FindActive(s.keys).value)
  {
    var kid := FindActive(s.keys).value;
    assert IsSigning(s.keys, kid);
    assert forall k | k in s.keys && s.keys[k].active :: k in ActiveKids(s.keys);
  }

  lemma ExchangeIsRedemption(env: Env, s: State, r: E.CodeRequest, g: E.Generated, x: Id, c: Id)
    requires Invariant(s) && ForeignKeys(s) && MayExchange(env, s, r, x, c)
    ensures ActiveKids(s.keys) != {} && x in s.codes && c in s.clients
    ensures Step(env, s, ExchangeCode(r, g)) == E.RedeemCode(env, s, x, c, g)
  {
    hide Invariant, Integrity, ForeignKeys, ActiveKids, E.RedeemCode, MayExchange, E.JudgeCode;
    InvariantGivesIntegrity(s);
    InvariantGivesKeys(s);
    AdmittedExchange(env, s, r, x, c);
  }

  /** Everything a successful exchange answers, signs and stores. */
  lemma ExchangeTells(env: Env, s: State, r: E.CodeRequest, g: E.Generated, x: Id, c: Id) returns (kid: string)
    requires Invariant(s) && ForeignKeys(s) && MayExchange(env, s, r, x, c)
    ensures IsNewestActive(s.keys, kid)
    ensures
      var o, code, client := Step(env, s, ExchangeCode(r, g)), s.codes[x], s.clients[c];
      var session := s.sessions[code.sessionId].row;
      var tenant := s.tenants[session.tenantId];
      var refreshable := "refresh_token" in client.grantTypes;
      var issuer := env.issuerBaseUrl + "/" + tenant.code;
      var accessExpiry, idExpiry := s.now + tenant.accessTokenLifetime * SECOND, s.now + tenant.idTokenLifetime * SECOND;
      && o.reply == E.Tokens(g.accessText, tenant.accessTokenLifetime, if refreshable then g.refreshText else "", g.idText, code.scope)
      && o.state.signed == s.signed[
           g.accessText := AccessJwt(kid, g.accessJti, issuer, session.userId, client.clientId, code.scope, code.sessionId, accessExpiry)][
           g.idText := IdJwt(kid, g.idJti, issuer, session.userId, client.clientId, code.nonce, session.createdAt,
                             env.atHash(g.accessText), idExpiry)]
      && o.state.accessTokens ==
           s.accessTokens[g.accessTokenId := Live(AccessToken(g.accessJti, code.sessionId, c, code.scope, accessExpiry))]
      && o.state.codes == s.codes[x := code.(usedAt := Some(s.now))]
  {
    hide Invariant, ForeignKeys, ActiveKids, MayExchange, E.RedeemCode, Step, NewestAmong, IsNewestActive;
    ExchangeIsRedemption(env, s, r, g, x, c);
    SigningKey(s);
    kid := FindActive(s.keys).value;
    RedeemedTables(env, s, x, c, g);
    RedeemedSigned(env, s, x, c, g);
    RedeemedReply(env, s, x, c, g);
  }

  lemma RedeemedReply(env: Env, s: State, x: Id, c: Id, g: E.Generated)
    requires ForeignKeys(s) && x in s.codes && c in s.clients && ActiveKids(s.keys) != {}
    ensures
      var code := s.codes[x];
      E.RedeemCode(env, s, x, c, g).reply
      == E.Tokens(g.accessText, s.tenants[s.sessions[code.sessionId].row.tenantId].accessTokenLifetime,
                  if "refresh_token" in s.clients[c].grantTypes then g.refreshText else "", g.idText, code.scope)
  {
    hide ForeignKeys, E.MintAccessToken, E.MintIdToken, E.MintRefreshToken;
  }

  /** The requested scope if there is one, else the scope of the access token paired with the presented refresh token. */
  function KeptScope(s: State, x: Id, requested: string): string
    requires x in s.refreshTokens && s.refreshTokens[x].row.accessTokenId in s.accessTokens
  {
    if requested == "" then s.accessTokens[s.refreshTokens[x].row.accessTokenId].row.scope else requested
  }

  lemma RefreshIsRotation(env: Env, s: State, r: E.RefreshRequest, g: E.Generated, x: Id, c: Id)
    requires Invariant(s) && ForeignKeys(s) && MayRefresh(env, s, r, x, c)
    ensures ActiveKids(s.keys) != {} && x in s.refreshTokens && c in s.clients
    ensures s.refreshTokens[x].row.accessTokenId in s.accessTokens
    ensures Step(env, s, Refresh(r, g)) == E.Rotate(env, s, x, c, KeptScope(s, x, r.scope), g)
  {
    hide Invariant, Integrity, ForeignKeys, ActiveKids, E.Rotate, MayRefresh, E.JudgeRefresh, E.GrantRefresh, KeptScope;
    InvariantGivesIntegrity(s);
    InvariantGivesKeys(s);
    AdmittedRefresh(env, s, r, x, c);
    TokenHasSession(s, x);
    GrantIsRotation(env, s, r, g, x, c);
  }

  lemma GrantIsRotation(env: Env, s: State, r: E.RefreshRequest, g: E.Generated, x: Id, c: Id)
    requires ForeignKeys(s) && x in s.refreshTokens && c in s.clients && E.JudgeRefresh(env, s, r) == E.Rotates(x, c)
    requires s.refreshTokens[x].row.accessTokenId in s.accessTokens
    ensures E.GrantRefresh(env, s, r, g) == E.Rotate(env, s, x, c, KeptScope(s, x, r.scope), g)
  {
    hide ForeignKeys, E.Rotate, E.JudgeRefresh, E.RevokeSessionTokens;
    assert E.RefreshedScope(s, x, r.scope) == KeptScope(s, x, r.scope);
  }

  /** Everything a successful refresh answers, signs and stores. */
  lemma RefreshTells(env: Env, s: State, r: E.RefreshRequest, g: E.Generated, x: Id, c: Id) returns (kid: string)
    requires Invariant(s) && ForeignKeys(s) && MayRefresh(env, s, r, x, c)
    ensures IsNewestActive(s.keys, kid) && s.refreshTokens[x].row.accessTokenId in s.accessTokens
    ensures
      var o, token, client := Step(env, s, Refresh(r, g)), s.refreshTokens[x].row, s.clients[c];
      var session := s.sessions[token.sessionId].row;
      var tenant := s.tenants[session.tenantId];
      var scope := KeptScope(s, x, r.scope);
      var expiry := s.now + tenant.accessTokenLifetime * SECOND;
      && o.reply == E.Tokens(g.accessText, tenant.accessTokenLifetime, g.refreshText, "", scope)
      && o.state.signed == s.signed[
           g.accessText := AccessJwt(kid, g.accessJti, env.issuerBaseUrl + "/" + tenant.code, session.userId, client.clientId,
                                     scope, token.sessionId, expiry)]
      && g.accessTokenId in o.state.accessTokens
      && o.state.accessTokens[g.accessTokenId] == Live(AccessToken(g.accessJti, token.sessionId, c, scope, expiry))
      && g.refreshTokenId in o.state.refreshTokens
      && o.state.refreshTokens[g.refreshTokenId] ==
           Live(RefreshToken(env.sha256Hex(g.refreshText), Some(x), token.sessionId, g.accessTokenId,
                             s.now + tenant.refreshTokenLifetime * SECOND))
  {
    hide Invariant, ForeignKeys, ActiveKids, MayRefresh, E.Rotate, Step, NewestAmong, IsNewestActive, KeptScope;
    RefreshIsRotation(env, s, r, g, x, c);
    SigningKey(s);
    kid := FindActive(s.keys).value;
    var scope := KeptScope(s, x, r.scope);
    RotatedTables(env, s, x, c, scope, g);
    RotatedSigned(env, s, x, c, scope, g);
    RotatedReply(env, s, x, c, scope, g);
  }

  lemma RotatedReply(env: Env, s: State, x: Id, c: Id, scope: string, g: E.Generated)
    requires ForeignKeys(s) && x in s.refreshTokens && c in s.clients && ActiveKids(s.keys) != {}
    ensures E.Rotate(env, s, x, c, scope, g).reply
         == E.Tokens(g.accessText, s.tenants[s.sessions[s.refreshTokens[x].row.sessionId].row.tenantId].accessTokenLifetime,
                     g.refreshText, "", scope)
  {
    hide ForeignKeys, E.MintAccessToken, E.MintRefreshToken;
  }

  // ---------- Scope along a lineage ----------

  /** The scope of a refresh token is that of the access token it is paired with. */
  ghost predicate HasScope(s: State, x: Id, scope: string) {
    && x in s.refreshTokens && s.refreshTokens[x].row.accessTokenId in s.accessTokens
    && s.accessTokens[s.refreshTokens[x].row.accessTokenId].row.scope == scope
  }

  /** Step `e` from `s` mints token `x` with this scope: that of the exchanged code, the one requested, or its parent's. */
  ghost predicate Mints(env: Env, s: State, e: Event, x: Id, parentId: Option<Id>, scope: string) {
    match e
    case ExchangeCode(r, g) =>
      parentId.None? && exists c :: c in s.codes && s.codes[c].code == r.code && s.codes[c].scope == scope
    case Refresh(r, g) =>
      && g.refreshTokenId == x && parentId.Some?
      && (if r.scope == "" then HasScope(s, parentId.value, scope) else scope == r.scope)
    case _ => false
  }

  lemma TokenAppears(env: Env, s: State, e: Event, x: Id) returns (scope: string)
    requires Invariant(s) && ForeignKeys(s) && Enabled(env, s, e)
    requires x !in s.refreshTokens && x in Step(env, s, e).state.refreshTokens
    ensures HasScope(Step(env, s, e).state, x, scope)
    ensures Mints(env, s, e, x, Step(env, s, e).state.refreshTokens[x].row.parentId, scope)
  {
    OnlyGrantsMint(env, s, e, x);
    match e
    case ExchangeCode(r, g) => scope := ExchangeMints(env, s, r, g, x);
    case Refresh(r, g) => scope := RefreshMints(env, s, r, g, x);
  }

  lemma OnlyGrantsMint(env: Env, s: State, e: Event, x: Id)
    requires Invariant(s) && ForeignKeys(s) && Enabled(env, s, e)
    requires x !in s.refreshTokens && x in Step(env, s, e).state.refreshTokens
    ensures (e.ExchangeCode? || e.Refresh?) && Step(env, s, e).reply.Tokens?
  {
    hide ForeignKeys, UniqueIndexes, Step, Enabled, ParentsSound, PairsSound, E.RedeemCode, E.Rotate, E.IsFresh, ActiveKids, Paired;
    var f := StepHasEffect(env, s, e);
    assert f.Redeemed? || f.Rotated?;
    GrantsAnswer(env, s, e);
  }

  lemma GrantsAnswer(env: Env, s: State, e: Event)
    requires Invariant(s) && ForeignKeys(s)
    requires (e.ExchangeCode? && E.JudgeCode(env, s, e.exchange).CodeAccepted?) || (e.Refresh? && E.JudgeRefresh(env, s, e.refresh).Rotates?)
    ensures Step(env, s, e).reply.Tokens?
  {
    hide Invariant, ForeignKeys, ActiveKids, E.JudgeCode, E.JudgeRefresh, E.GrantCode, E.GrantRefresh;
    InvariantGivesKeys(s);
    if e.ExchangeCode? {
      CodeCases(env, s, e.exchange, e.generated);
    } else {
      RefreshCases(env, s, e.refresh, e.generated);
    }
  }

  lemma ExchangeMints(env: Env, s: State, r: E.CodeRequest, g: E.Generated, x: Id) returns (scope: string)
    requires Invariant(s) && ForeignKeys(s) && Step(env, s, ExchangeCode(r, g)).reply.Tokens?
    requires x !in s.refreshTokens && x in Step(env, s, ExchangeCode(r, g)).state.refreshTokens
    ensures HasScope(Step(env, s, ExchangeCode(r, g)).state, x, scope)
    ensures Mints(env, s, ExchangeCode(r, g), x, Step(env, s, ExchangeCode(r, g)).state.refreshTokens[x].row.parentId, scope)
  {
    hide Invariant, ForeignKeys, Step;
    ExchangeExactly(env, s, r, g);
    var id, c :| MayExchange(env, s, r, id, c);
    var kid := ExchangeTells(env, s, r, g, id, c);
    scope := s.codes[id].scope;
    ExchangeRoots(env, s, r, g, id, c, x);
  }

  lemma ExchangeRoots(env: Env, s: State, r: E.CodeRequest, g: E.Generated, id: Id, c: Id, x: Id)
    requires Invariant(s) && ForeignKeys(s) && MayExchange(env, s, r, id, c)
    requires x !in s.refreshTokens && x in Step(env, s, ExchangeCode(r, g)).state.refreshTokens
    ensures
      var t := Step(env, s, ExchangeCode(r, g)).state;
      t.refreshTokens[x].row.parentId.None? && t.refreshTokens[x].row.accessTokenId == g.accessTokenId
  {
    hide Invariant, ForeignKeys, ActiveKids, MayExchange, E.RedeemCode, Step;
    ExchangeIsRedemption(env, s, r, g, id, c);
    RedeemedTables(env, s, id, c, g);
  }

  lemma RefreshMints(env: Env, s: State, r: E.RefreshRequest, g: E.Generated, x: Id) returns (scope: string)
    requires Invariant(s) && ForeignKeys(s) && Step(env, s, Refresh(r, g)).reply.Tokens?
    requires x !in s.refreshTokens && x in Step(env, s, Refresh(r, g)).state.refreshTokens
    ensures HasScope(Step(env, s, Refresh(r, g)).state, x, scope)
    ensures Mints(env, s, Refresh(r, g), x, Step(env, s, Refresh(r, g)).state.refreshTokens[x].row.parentId, scope)
  {
    hide Invariant, ForeignKeys, Step;
    RefreshExactly(env, s, r, g);
    var parent, c :| MayRefresh(env, s, r, parent, c);
    var kid := RefreshTells(env, s, r, g, parent, c);
    scope := KeptScope(s, parent, r.scope);
    RefreshAddsOne(env, s, r, g, parent, c, x);
  }

  lemma RefreshAddsOne(env: Env, s: State, r: E.RefreshRequest, g: E.Generated, parent: Id, c: Id, x: Id)
    requires Invariant(s) && ForeignKeys(s) && MayRefresh(env, s, r, parent, c)
    requires x !in s.refreshTokens && x in Step(env, s, Refresh(r, g)).state.refreshTokens
    ensures x == g.refreshTokenId
  {
    hide Invariant, ForeignKeys, ActiveKids, MayRefresh, E.Rotate, Step, KeptScope;
    RefreshIsRotation(env, s, r, g, parent, c);
    RotatedTables(env, s, parent, c, KeptScope(s, parent, r.scope), g);
  }

  /** Every refresh token was minted by one step of the run, with the scope it still has. */
  lemma {:induction false} ScopeHistory(env: Env, trace: seq<State>, events: seq<Event>, n: nat, x: Id) returns (k: nat, scope: string)
    requires IsRun(env, trace, events) && n < |trace| && x in trace[n].refreshTokens
    ensures k < n && x !in trace[k].refreshTokens && HasScope(trace[n], x, scope)
    ensures Mints(env, trace[k], events[k], x, trace[n].refreshTokens[x].row.parentId, scope)
    decreases n
  {
    hide Invariant, Step, Enabled, HasScope, Mints, ForeignKeys, StateEvolved;
    InitialHasNoTokens(env, trace, events);
    RunIsContinuation(env, trace, events);
    InvariantAlways(env, trace, events, n - 1);
    assert Next(env, trace[n - 1], events[n - 1], trace[n]);
    if x in trace[n - 1].refreshTokens {
      k, scope := ScopeHistory(env, trace, events, n - 1, x);
      EvolvesAlong(env, trace, events, n - 1, n);
      KeepsScope(trace[n - 1], trace[n], x, scope);
    } else {
      k := n - 1;
      scope := TokenAppears(env, trace[k], events[k], x);
    }
  }

  lemma KeepsScope(s: State, t: State, x: Id, scope: string)
    requires StateEvolved(s, t) && HasScope(s, x, scope)
    ensures HasScope(t, x, scope) && t.refreshTokens[x].row == s.refreshTokens[x].row
  {
  }

  lemma InitialHasNoTokens(env: Env, trace: seq<State>, events: seq<Event>)
    requires IsRun(env, trace, events)
    ensures trace[0].refreshTokens == map[]
  {
    hide Integrity;
  }

  /** The refreshes that minted the members of the lineage asked for no scope. */
  ghost predicate Unscoped(events: seq<Event>, path: seq<Id>) {
    forall k {:trigger events[k]} | 0 <= k < |events| && events[k].Refresh? && events[k].generated.refreshTokenId in path ::
      events[k].refresh.scope == ""
  }

  /**
   Along a lineage of refreshes without scope the scope stays that of the code the lineage started from, whatever happened
   in between.
   */
  lemma {:induction false} LineageKeepsCodeScope(env: Env, trace: seq<State>, events: seq<Event>, n: nat, path: seq<Id>)
    returns (k: nat, c: Id)
    requires IsRun(env, trace, events) && n < |trace| && IsLineage(trace[n].refreshTokens, path) && Unscoped(events, path)
    ensures k < n && events[k].ExchangeCode? && c in trace[k].codes && trace[k].codes[c].code == events[k].exchange.code
    ensures HasScope(trace[n], path[|path| - 1], trace[k].codes[c].scope)
    decreases |path|
  {
    hide IsRun, HasScope;
    var x := path[|path| - 1];
    RunLength(env, trace, events);
    var at, scope := ScopeHistory(env, trace, events, n, x);
    if |path| == 1 {
      k := at;
      c :| c in trace[k].codes && trace[k].codes[c].code == events[k].exchange.code && trace[k].codes[c].scope == scope;
    } else {
      var front := path[..|path| - 1];
      var parent := front[|front| - 1];
      PrefixIsLineage(trace[n].refreshTokens, path, |front|);
      assert trace[n].refreshTokens[x].row.parentId == Some(parent);
      k, c := LineageKeepsCodeScope(env, trace, events, n, front);
      assert HasScope(trace[at], parent, scope);
      ScopeSince(env, trace, events, at, n, parent, scope);
      OneScope(trace[n], parent, scope, trace[k].codes[c].scope);
    }
  }

  lemma RunLength(env: Env, trace: seq<State>, events: seq<Event>)
    requires IsRun(env, trace, events)
    ensures |trace| == |events| + 1
  {
  }

  lemma ScopeSince(env: Env, trace: seq<State>, events: seq<Event>, i: nat, j: nat, x: Id, scope: string)
    requires IsRun(env, trace, events) && i <= j < |trace| && HasScope(trace[i], x, scope)
    ensures HasScope(trace[j], x, scope)
  {
    hide Invariant, StateEvolved, IsRun, HasScope;
    RunIsContinuation(env, trace, events);
    EvolvesAlong(env, trace, events, i, j);
    KeepsScope(trace[i], trace[j], x, scope);
  }

  lemma OneScope(s: State, x: Id, a: string, b: string)
    requires HasScope(s, x, a) && HasScope(s, x, b)
    ensures a == b
  {
  }

  // ---------- Userinfo ----------

  /** The token is a signed access token of an active key, unexpired, whose row is unrevoked. */
  ghost predicate IsAcceptable(s: State, token: string) {
    && token in s.signed && s.signed[token].AccessJwt?
    && s.signed[token].kid in s.keys && s.keys[s.signed[token].kid].active
    && s.now < s.signed[token].exp
    && exists a :: a in s.accessTokens && s.accessTokens[a].row.jti == s.signed[token].jti && s.accessTokens[a].Live?
  }

  /** What the claims say about a user under a scope, and that they say nothing else. */
  ghost predicate Tells(claims: map<string, E.Claim>, u: Id, user: User, scope: string) {
    var scopes := Text.Split(scope, ' ');
    && "sub" in claims && claims["sub"] == E.Subject(u)
    && ("updated_at" in claims <==> "profile" in scopes)
    && ("updated_at" in claims ==> claims["updated_at"] == E.Number(user.updatedAt / SECOND))
    && ("name" in claims <==> "profile" in scopes && user.name.Some?)
    && ("name" in claims ==> claims["name"] == E.Words(user.name.value))
    && ("email" in claims <==> "email" in scopes)
    && ("email" in claims ==> claims["email"] == E.Words(user.email))
    && ("email_verified" in claims <==> "email" in scopes)
    && ("email_verified" in claims ==> claims["email_verified"] == E.Flag(user.emailVerified))
    && claims.Keys <= {"sub", "updated_at", "name", "email", "email_verified"}
  }

  lemma ClaimsTell(u: Id, user: User, scope: string)
    ensures Tells(E.ClaimsOf(u, user, scope), u, user, scope)
  {
    hide Text.Split;
  }

  lemma AcceptableExactly(s: State, token: string)
    requires AccessTokensUnique(s.accessTokens)
    ensures E.Accepts(s, token) <==> IsAcceptable(s, token)
  {
    if token in s.signed && s.signed[token].AccessJwt? {
      var found := FindByJti(s.accessTokens, s.signed[token].jti);
      assert found.Some? ==> s.accessTokens[found.value].row.jti == s.signed[token].jti;
    }
  }

  /**
   Userinfo answers claims if and only if the token is acceptable, and they are exactly the claims about its session's user
   that the token's space-separated scopes call for; any other token is refused as invalid. Nothing changes.
   */
  lemma UserInfoExactly(env: Env, trace: seq<State>, events: seq<Event>, n: nat, token: string)
    requires IsRun(env, trace, events) && n < |trace| && ForeignKeys(trace[n])
    ensures
      var s, o := trace[n], Step(env, trace[n], UserInfo(token));
      && o.state == s
      && (if IsAcceptable(s, token) then
            var j := s.signed[token];
            && j.sid in s.sessions && s.sessions[j.sid].row.userId in s.users
            && o.reply.Claims?
            && Tells(o.reply.claims, s.sessions[j.sid].row.userId, s.users[s.sessions[j.sid].row.userId], j.scope)
          else o.reply == E.Failed(E.InvalidToken))
  {
    hide Invariant, Integrity, ForeignKeys, IsRun, Tells, IsAcceptable, E.Accepts, E.ClaimsOf;
    var s := trace[n];
    RunIsContinuation(env, trace, events);
    InvariantAlways(env, trace, events, n);
    InvariantGivesIntegrity(s);
    AccessIsUnique(s);
    AcceptableExactly(s, token);
    if E.Accepts(s, token) {
      AcceptedGetsClaims(env, trace, events, n, token);
      AcceptableIsSigned(s, token);
      var j := s.signed[token];
      ClaimsTell(j.sub, s.users[j.sub], j.scope);
    }
  }

  lemma AcceptableIsSigned(s: State, token: string)
    requires IsAcceptable(s, token)
    ensures token in s.signed && s.signed[token].AccessJwt?
  {
  }

  lemma AccessIsUnique(s: State)
    requires Integrity(s)
    ensures AccessTokensUnique(s.accessTokens)
  {
    hide ForeignKeys;
  }

  /** Scopes are the words between single spaces. */
  lemma ScopesAreWords(words: seq<string>)
    requires |words| > 0 && forall i | 0 <= i < |words| :: Text.Free(words[i], ' ')
    ensures forall w :: w in Text.Split(Text.Join(words, ' '), ' ') <==> w in words
  {
    Text.SplitJoin(words, ' ');
  }

  // ---------- Tenants ----------

  predicate Positive(v: Option<int>) { v.Some? ==> v.value > 0 }

  predicate AllPositive(l: E.Lifetimes) {
    Positive(l.session) && Positive(l.authCode) && Positive(l.accessToken) && Positive(l.refreshToken) && Positive(l.idToken)
  }

  lemma LifetimesAreChecked(l: E.Lifetimes)
    ensures E.LifetimesValid(E.LifetimeList(l)) <==> AllPositive(l)
  {
    var vals := E.LifetimeList(l);
    assert vals[0] == l.session && vals[1] == l.authCode && vals[2] == l.accessToken && vals[3] == l.refreshToken && vals[4] == l.idToken;
  }

  /** The field has the value given, or else this one. */
  predicate Is(field: int, given: Option<int>, otherwise: int) {
    if given.Some? then field == given.value else field == otherwise
  }

  /** A tenant is created if and only if the request is well-formed, every lifetime given is positive and the code is new. */
  lemma TenantCreatedExactly(env: Env, s: State, id: Id, code: string, l: E.Lifetimes, ok: bool)
    requires ForeignKeys(s) && id !in s.tenants
    ensures
      var o := Step(env, s, CreateTenant(id, code, l, ok));
      var taken := exists x :: x in s.tenants && s.tenants[x].code == code;
      if ok && AllPositive(l) && !taken then
        && o.reply == E.TenantSaved
        && o.state == s.(tenants := o.state.tenants) && o.state.tenants.Keys == s.tenants.Keys + {id}
        && (forall x | x in s.tenants :: o.state.tenants[x] == s.tenants[x])
        && var t := o.state.tenants[id];
           && t.code == code && Is(t.sessionLifetime, l.session, 3600) && Is(t.authCodeLifetime, l.authCode, 60)
           && Is(t.accessTokenLifetime, l.accessToken, 3600) && Is(t.refreshTokenLifetime, l.refreshToken, 2592000)
           && Is(t.idTokenLifetime, l.idToken, 3600)
      else o == E.Outcome(s, E.Failed(if ok && AllPositive(l) then E.Conflict else E.BadRequest))
  {
    LifetimesAreChecked(l);
    hide ForeignKeys, E.LifetimesValid, AllPositive;
    var found := FindTenantByCode(s, code);
    assert found.Some? ==> s.tenants[found.value].code == code;
  }

  /** An update sets exactly the lifetimes given and keeps the tenant's code and the others. */
  lemma TenantUpdatedExactly(env: Env, s: State, id: Id, l: E.Lifetimes, ok: bool)
    requires ForeignKeys(s)
    ensures
      var o := Step(env, s, UpdateTenant(id, l, ok));
      if id in s.tenants && ok && AllPositive(l) then
        && o.reply == E.TenantSaved
        && o.state == s.(tenants := o.state.tenants) && o.state.tenants.Keys == s.tenants.Keys
        && (forall x | x in s.tenants && x != id :: o.state.tenants[x] == s.tenants[x])
        && var t, was := o.state.tenants[id], s.tenants[id];
           && t.code == was.code && Is(t.sessionLifetime, l.session, was.sessionLifetime)
           && Is(t.authCodeLifetime, l.authCode, was.authCodeLifetime)
           && Is(t.accessTokenLifetime, l.accessToken, was.accessTokenLifetime)
           && Is(t.refreshTokenLifetime, l.refreshToken, was.refreshTokenLifetime)
           && Is(t.idTokenLifetime, l.idToken, was.idTokenLifetime)
      else o == E.Outcome(s, E.Failed(if id in s.tenants then E.BadRequest else E.NotFound))
  {
    LifetimesAreChecked(l);
    hide ForeignKeys, E.LifetimesValid, AllPositive;
  }

  // ---------- Keys ----------

  /** Out of use since now, otherwise as it was. */
  predicate IsRetired(key: SignKey, was: SignKey, now: Time) {
    !key.active && key.rotatedAt == Some(now) && key.id == was.id && key.createdAt == was.createdAt
  }

  /** A key is deactivated if and only if it is active and not the last active one; no other key changes. */
  lemma KeyDeactivatedExactly(env: Env, s: State, kid: string)
    requires ForeignKeys(s)
    ensures
      var o := Step(env, s, DeactivateKey(kid));
      if kid in s.keys && s.keys[kid].active && exists k :: k in s.keys && k != kid && s.keys[k].active then
        && o.reply == E.NoContent && o.state == s.(keys := o.state.keys) && o.state.keys.Keys == s.keys.Keys
        && IsRetired(o.state.keys[kid], s.keys[kid], s.now)
        && forall k | k in s.keys && k != kid :: o.state.keys[k] == s.keys[k]
      else o == E.Outcome(s, E.Failed(if kid in s.keys then E.BadRequest else E.NotFound))
  {
    hide ForeignKeys;
    var active := ActiveKids(s.keys);
    LastOrNot(active, kid);
    assert forall k :: k in active <==> k in s.keys && s.keys[k].active;
    if kid in active && |active| > 1 {
      var k :| k in active && k != kid;
      assert k in s.keys && k != kid && s.keys[k].active;
    }
  }

  lemma LastOrNot(active: set<string>, kid: string)
    ensures kid in active ==> (|active| <= 1 <==> forall k | k in active :: k == kid)
  {
    if kid in active {
      if k :| k in active && k != kid {
        SubsetSize({kid, k}, active);
      } else {
        assert active == {kid};
      }
    }
  }

  /** A rotation retires every active key, leaves the inactive ones alone and creates one active key. */
  lemma KeyRotatedExactly(env: Env, s: State, kid: string, id: Id)
    requires ForeignKeys(s) && kid !in s.keys
    ensures
      var o := Step(env, s, RotateKey(kid, id));
      && o.reply == E.KeyCreated(kid) && o.state == s.(keys := o.state.keys) && o.state.keys.Keys == s.keys.Keys + {kid}
      && o.state.keys[kid] == SignKey(id, s.now, true, None)
      && forall k | k in s.keys ::
           if s.keys[k].active then IsRetired(o.state.keys[k], s.keys[k], s.now) else o.state.keys[k] == s.keys[k]
  {
    hide ForeignKeys;
  }

  // ---------- Incident requests ----------

  /** The request is about this session. */
  predicate Strikes(e: Event, session: Session) {
    match e
    case RevokeAll => true
    case RevokeTenant(id) => session.tenantId == id
    case RevokeUser(id) => session.userId == id
    case _ => false
  }

  /** The live rows a request strikes, by the session each belongs to. */
  ghost function StruckAccess(rows: Table<AccessToken>, sessions: Table<Session>, e: Event): set<Id> {
    set x | x in rows && rows[x].Live? && rows[x].row.sessionId in sessions && Strikes(e, sessions[rows[x].row.sessionId].row)
  }

  ghost function StruckRefresh(rows: Table<RefreshToken>, sessions: Table<Session>, e: Event): set<Id> {
    set x | x in rows && rows[x].Live? && rows[x].row.sessionId in sessions && Strikes(e, sessions[rows[x].row.sessionId].row)
  }

  ghost function StruckSessions(sessions: Table<Session>, e: Event): set<Id> {
    set x | x in sessions && sessions[x].Live? && Strikes(e, sessions[x].row)
  }

  /** Exactly these rows are revoked now; all others are as they were. */
  ghost predicate RevokedNow<T>(before: Table<T>, after: Table<T>, struck: set<Id>, now: Time) {
    && after.Keys == before.Keys
    && forall x | x in before :: after[x] == if x in struck then Revoked(before[x].row, now) else before[x]
  }

  /** An incident request revokes exactly the live rows of the sessions it is about, and answers how many of each kind. */
  lemma IncidentExactly(env: Env, s: State, e: Event)
    requires ForeignKeys(s) && (e.RevokeAll? || e.RevokeTenant? || e.RevokeUser?)
    ensures
      var o := Step(env, s, e);
      var sessions := StruckSessions(s.sessions, e);
      var accessTokens := StruckAccess(s.accessTokens, s.sessions, e);
      var refreshTokens := StruckRefresh(s.refreshTokens, s.sessions, e);
      && o.reply == E.RevokedCounts(|sessions|, |accessTokens|, |refreshTokens|)
      && o.state == s.(sessions := o.state.sessions, accessTokens := o.state.accessTokens, refreshTokens := o.state.refreshTokens)
      && RevokedNow(s.sessions, o.state.sessions, sessions, s.now)
      && RevokedNow(s.accessTokens, o.state.accessTokens, accessTokens, s.now)
      && RevokedNow(s.refreshTokens, o.state.refreshTokens, refreshTokens, s.now)
  {
    hide ForeignKeys, Step, RevokeIn, LiveIn, RevokedNow, StruckAccess, StruckRefresh, StruckSessions, AccessTokensOf, RefreshTokensOf, AllOf;
    var which := AllOf(s.sessions, e);
    IncidentIsBulk(env, s, e);
    StruckAre(s, e);
    RevokedAre(s.sessions, which, s.now);
    RevokedAre(s.accessTokens, AccessTokensOf(s, which), s.now);
    RevokedAre(s.refreshTokens, RefreshTokensOf(s, which), s.now);
  }

  /** The sessions the request is about, live or not. */
  ghost function AllOf(sessions: Table<Session>, e: Event): set<Id> {
    set x | x in sessions && Strikes(e, sessions[x].row)
  }

  lemma StruckAre(s: State, e: Event)
    ensures var which := AllOf(s.sessions, e);
      && LiveIn(s.sessions, which) == StruckSessions(s.sessions, e)
      && LiveIn(s.accessTokens, AccessTokensOf(s, which)) == StruckAccess(s.accessTokens, s.sessions, e)
      && LiveIn(s.refreshTokens, RefreshTokensOf(s, which)) == StruckRefresh(s.refreshTokens, s.sessions, e)
  {
  }

  lemma RevokedAre<T>(rows: Table<T>, which: set<Id>, now: Time)
    ensures RevokedNow(rows, RevokeIn(rows, which, now), LiveIn(rows, which), now)
  {
  }

  lemma IncidentIsBulk(env: Env, s: State, e: Event)
    requires ForeignKeys(s) && (e.RevokeAll? || e.RevokeTenant? || e.RevokeUser?)
    ensures
      var o, which := Step(env, s, e), AllOf(s.sessions, e);
      && o.reply == E.RevokedCounts(|LiveIn(s.sessions, which)|, |LiveIn(s.accessTokens, AccessTokensOf(s, which))|,
                                    |LiveIn(s.refreshTokens, RefreshTokensOf(s, which))|)
      && o.state == s.(sessions := RevokeIn(s.sessions, which, s.now),
                       accessTokens := RevokeIn(s.accessTokens, AccessTokensOf(s, which), s.now),
                       refreshTokens := RevokeIn(s.refreshTokens, RefreshTokensOf(s, which), s.now))
  {
    hide ForeignKeys, E.RevokeEverything;
    var which := AllOf(s.sessions, e);
    assert Step(env, s, e) == E.RevokeEverything(s, which) by {
      assert e.RevokeAll? ==> which == s.sessions.Keys;
      assert e.RevokeTenant? ==> which == SessionsOfTenant(s, e.tenantId);
      assert e.RevokeUser? ==> which == SessionsOfUser(s, e.userId);
    }
    I.RevokeEverythingTables(s, which);
    I.CountsOf(s, which);
  }
}
