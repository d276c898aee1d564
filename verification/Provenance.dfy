/**
 Where an exchanged code comes from: exactly one earlier authorize request of the same client, for the
 redirect URI registered then; and no code is exchanged twice.
 */
module Provenance {
  import opened Basics
  import opened Schema
  import opened Repository
  import opened Machine
  import opened Effects
  import opened Invariants
  import opened Evolution
  import opened Acceptance
  import E = Endpoints

  /** Event `e` in state `s` is an authorize request that issued the code stored in row `row`. */
  ghost predicate IssuedBy(s: State, e: Event, x: Id, row: AuthCode) {
    && e.Authorize? && e.newCode == x
    && var v := E.JudgeAuthorize(s, e.authorize);
       && v.Admitted?
       && var sid := E.CurrentSession(s, e.authorize, v.tenantId);
          && sid.Some?
          && row.(usedAt := None) == E.NewCode(s, e.authorize, v.tenantId, v.clientId, sid.value, e.code)
  }

  lemma CodeAppears(env: Env, s: State, e: Event, x: Id)
    requires Invariant(s) && Enabled(env, s, e)
    requires x !in s.codes && x in Step(env, s, e).state.codes
    ensures IssuedBy(s, e, x, Step(env, s, e).state.codes[x])
  {
    hide ForeignKeys, UniqueIndexes, Step, Did, Enabled, ParentsSound, PairsSound, IssuedBy;
    var f := StepHasEffect(env, s, e);
    OnlyIssuingAddsCodes(env, s, f, Step(env, s, e).state);
    IssuedCode(env, s, e, x);
  }

  lemma OnlyIssuingAddsCodes(env: Env, s: State, f: Effect, t: State)
    requires ForeignKeys(s) && Did(env, s, f, t) && t.codes.Keys != s.codes.Keys
    ensures f.Issued?
  {
    hide ForeignKeys, E.RedeemCode, E.Rotate, E.IsFresh, ActiveKids, Paired;
    match f
    case Redeemed(id, clientId, g) => RedeemedTables(env, s, id, clientId, g);
    case Rotated(id, clientId, scope, g) => RotatedTables(env, s, id, clientId, scope, g);
    case _ =>
  }

  lemma IssuedCode(env: Env, s: State, e: Event, x: Id)
    requires ForeignKeys(s) && e.Authorize? && x !in s.codes && x in Step(env, s, e).state.codes
    ensures IssuedBy(s, e, x, Step(env, s, e).state.codes[x])
  {
    hide ForeignKeys, E.JudgeAuthorize;
  }

  /** Every stored code was issued by an earlier authorize request of the run. */
  lemma {:induction false} CodeHistory(env: Env, trace: seq<State>, events: seq<Event>, n: nat, x: Id) returns (k: nat)
    requires IsRun(env, trace, events) && n < |trace| && x in trace[n].codes
    ensures k < n && IssuedBy(trace[k], events[k], x, trace[n].codes[x])
  {
    hide Invariant, Step, IssuedBy, StateEvolved, Enabled;
    if n == 0 {
      assert false;
    } else {
      RunIsContinuation(env, trace, events);
      InvariantAlways(env, trace, events, n - 1);
      assert Next(env, trace[n - 1], events[n - 1], trace[n]);
      if x in trace[n - 1].codes {
        k := CodeHistory(env, trace, events, n - 1, x);
        EvolvesAlong(env, trace, events, n - 1, n);
        SameIssue(trace[k], events[k], x, trace[n - 1], trace[n]);
      } else {
        k := n - 1;
        CodeAppears(env, trace[k], events[k], x);
      }
    }
  }

  lemma SameIssue(s: State, e: Event, x: Id, t: State, u: State)
    requires StateEvolved(t, u) && x in t.codes && IssuedBy(s, e, x, t.codes[x])
    ensures x in u.codes && IssuedBy(s, e, x, u.codes[x])
  {
    hide Evolved, E.JudgeAuthorize, E.CurrentSession;
  }

  // ---------- One exchange per code ----------

  ghost predicate Succeeds(env: Env, s: State, e: Event)
    requires ForeignKeys(s)
  {
    Step(env, s, e).reply.Tokens?
  }

  lemma ExchangeUsesCode(env: Env, s: State, e: Event)
    requires Invariant(s) && e.ExchangeCode? && Succeeds(env, s, e)
    ensures
      var v := E.JudgeCode(env, s, e.exchange);
      && v.CodeAccepted? && s.codes[v.codeId].code == e.exchange.code && !s.codes[v.codeId].IsUsed()
      && s.codes[v.codeId].clientId == v.clientId
      && s.codes[v.codeId].redirectUri == e.exchange.redirectUri
      && E.VerifierMatches(env, s.codes[v.codeId].challenge, e.exchange.verifier)
      && Step(env, s, e) == E.RedeemCode(env, s, v.codeId, v.clientId, e.generated)
      && v.codeId in Step(env, s, e).state.codes && Step(env, s, e).state.codes[v.codeId].IsUsed()
  {
    hide ForeignKeys, UniqueIndexes, E.VerifierMatches, E.AuthenticateClient, RotationSound, TenantsCohere, E.RedeemCode;
    var v := E.JudgeCode(env, s, e.exchange);
    if v.CodeAccepted? {
      RedeemedTables(env, s, v.codeId, v.clientId, e.generated);
    }
  }

  /** Of two successful exchanges in a serial run, the codes differ. */
  lemma ExchangedOnce(env: Env, trace: seq<State>, events: seq<Event>, i: nat, j: nat)
    requires IsRun(env, trace, events) && i < j < |events|
    requires events[i].ExchangeCode? && events[j].ExchangeCode?
    requires ForeignKeys(trace[i]) && ForeignKeys(trace[j])
    requires Succeeds(env, trace[i], events[i]) && Succeeds(env, trace[j], events[j])
    ensures events[i].exchange.code != events[j].exchange.code
  {
    hide Step, Succeeds, StateEvolved, ForeignKeys, RotationSound, TenantsCohere, E.JudgeCode, E.VerifierMatches, E.RedeemCode;
    RunIsContinuation(env, trace, events);
    InvariantAlways(env, trace, events, i);
    InvariantAlways(env, trace, events, j);
    assert Next(env, trace[i], events[i], trace[i + 1]);
    ExchangeUsesCode(env, trace[i], events[i]);
    ExchangeUsesCode(env, trace[j], events[j]);
    EvolvesAlong(env, trace, events, i + 1, j);
    EvolvesAlong(env, trace, events, i, j);
    var x := E.JudgeCode(env, trace[i], events[i].exchange).codeId;
    UsedStaysUsed(trace[i], trace[i + 1], trace[j], x);
    assert trace[j].codes[x].code == events[i].exchange.code;
  }

  lemma UsedStaysUsed(s: State, t: State, u: State, x: Id)
    requires StateEvolved(s, u) && StateEvolved(t, u) && x in s.codes && x in t.codes && t.codes[x].IsUsed()
    ensures x in u.codes && u.codes[x].IsUsed() && u.codes[x].code == s.codes[x].code
  {
    hide Evolved;
    assert u.codes[x].(usedAt := None) == s.codes[x].(usedAt := None);
  }

  // ---------- The exchange and the authorize request behind it ----------

  /** The issuer that discovery publishes under a tenant code. */
  ghost function DiscoveryIssuer(env: Env, s: State, tenantCode: string): Option<string> {
    if FindTenantByCode(s, tenantCode).Some? then Some(env.issuerBaseUrl + "/" + tenantCode) else None
  }

  /**
   A successful exchange goes back to one authorize request: of the exchanging client, admitted then with a
   redirect URI that was registered for the client and equals the one now presented; if it carried a challenge,
   the verifier hashes to it; and the ID token's issuer is what discovery publishes, then and now, for the
   tenant whose authorize endpoint was used.
   */
  lemma ExchangeProvenance(env: Env, trace: seq<State>, events: seq<Event>, n: nat) returns (k: nat)
    requires IsRun(env, trace, events) && n < |events|
    requires events[n].ExchangeCode? && ForeignKeys(trace[n]) && Succeeds(env, trace[n], events[n])
    ensures k < n && events[k].Authorize? && events[k].code == events[n].exchange.code
    ensures
      var request, exchange := events[k].authorize, events[n].exchange;
      var v := E.JudgeAuthorize(trace[k], request);
      && v.Admitted?
      && trace[k].clients[v.clientId].clientId == exchange.credentials.clientId
      && request.redirectUri == exchange.redirectUri
      && request.redirectUri in trace[k].clients[v.clientId].redirectUris
      && (request.codeChallenge != "" ==> exchange.verifier != "" && env.s256(exchange.verifier) == request.codeChallenge)
    ensures
      var idToken := Step(env, trace[n], events[n]).reply.idToken;
      && idToken in trace[n + 1].signed && trace[n + 1].signed[idToken].IdJwt?
      && DiscoveryIssuer(env, trace[k], events[k].authorize.tenantCode) == Some(trace[n + 1].signed[idToken].iss)
      && DiscoveryIssuer(env, trace[n], events[k].authorize.tenantCode) == Some(trace[n + 1].signed[idToken].iss)
      && trace[n + 1].signed[idToken].nonce == E.NonEmpty(events[k].authorize.nonce)
      && trace[n + 1].signed[idToken].atHash == env.atHash(Step(env, trace[n], events[n]).reply.accessToken)
  {
    hide Step, Succeeds, StateEvolved, RotationSound, TenantsCohere, ForeignKeys, E.JudgeCode, E.RedeemCode, IssuedBy, E.JudgeAuthorize, Enabled;
    hide Integrity, E.IsFresh;
    RunIsContinuation(env, trace, events);
    InvariantAlways(env, trace, events, n);
    assert Next(env, trace[n], events[n], trace[n + 1]);
    ExchangeUsesCode(env, trace[n], events[n]);
    var v := E.JudgeCode(env, trace[n], events[n].exchange);
    k := CodeHistory(env, trace, events, n, v.codeId);
    InvariantAlways(env, trace, events, k);
    EvolvesAlong(env, trace, events, k, n);
    IssueFacts(env, trace[k], events[k], v.codeId, trace[n]);
    AcceptedClient(env, trace[n], events[n].exchange);
    IdTokenSigned(env, trace[n], events[n], v.codeId, v.clientId);
  }

  lemma AcceptedClient(env: Env, s: State, r: E.CodeRequest)
    requires E.JudgeCode(env, s, r).CodeAccepted?
    ensures s.clients[E.JudgeCode(env, s, r).clientId].clientId == r.credentials.clientId
  {
    hide E.VerifierMatches;
  }

  /** What the issuing request fixes about a code that is still there in a later state. */
  lemma IssueFacts(env: Env, s: State, e: Event, x: Id, t: State)
    requires Invariant(s) && Invariant(t) && StateEvolved(s, t) && x in t.codes && IssuedBy(s, e, x, t.codes[x])
    ensures e.Authorize?
    ensures
      var v := E.JudgeAuthorize(s, e.authorize);
      var code := t.codes[x];
      && code.code == e.code && code.nonce == E.NonEmpty(e.authorize.nonce)
      && v.Admitted? && v.clientId == code.clientId && v.clientId in t.clients
      && s.clients[v.clientId].clientId == t.clients[v.clientId].clientId
      && code.redirectUri == e.authorize.redirectUri && e.authorize.redirectUri in s.clients[v.clientId].redirectUris
      && code.challenge == E.NonEmpty(e.authorize.codeChallenge)
      && code.sessionId in t.sessions && t.sessions[code.sessionId].row.tenantId in t.tenants
      && var issuer := Some(E.IssuerOf(env, t.tenants[t.sessions[code.sessionId].row.tenantId].code));
         DiscoveryIssuer(env, s, e.authorize.tenantCode) == issuer && DiscoveryIssuer(env, t, e.authorize.tenantCode) == issuer
  {
    hide RotationSound, TenantsCohere, UniqueIndexes, KeysEvolved, SignedEvolved, UsersEvolved;
    var code := t.codes[x];
    assert code.sessionId in s.sessions && t.sessions[code.sessionId].row == s.sessions[code.sessionId].row;
    var tenantId := t.sessions[code.sessionId].row.tenantId;
    assert s.tenants[tenantId].code == e.authorize.tenantCode == t.tenants[tenantId].code;
  }

  lemma IdTokenSigned(env: Env, s: State, e: Event, x: Id, clientId: Id)
    requires Invariant(s) && e.ExchangeCode? && Enabled(env, s, e) && Succeeds(env, s, e)
    requires E.JudgeCode(env, s, e.exchange) == E.CodeAccepted(x, clientId)
    requires Step(env, s, e) == E.RedeemCode(env, s, x, clientId, e.generated)
    ensures
      var o := Step(env, s, e);
      && o.reply.idToken == e.generated.idText && o.reply.accessToken == e.generated.accessText
      && o.reply.idToken in o.state.signed
      && var j := o.state.signed[o.reply.idToken];
         && j.IdJwt? && j.nonce == s.codes[x].nonce && j.atHash == env.atHash(o.reply.accessToken)
         && j.iss == E.IssuerOf(env, s.tenants[s.sessions[s.codes[x].sessionId].row.tenantId].code)
  {
    hide E.JudgeCode, Enabled, UniqueIndexes, RotationSound, TenantsCohere, E.MintAccessToken, E.MintIdToken, E.MintRefreshToken;
    RedeemedSigned(env, s, x, clientId, e.generated);
  }
}
