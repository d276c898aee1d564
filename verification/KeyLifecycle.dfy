/** Signing keys over a run: how many are active, which are published, and how long a signature verifies. */
module KeyLifecycle {
  import opened Basics
  import opened Schema
  import opened Repository
  import opened Machine
  import opened Effects
  import opened Invariants
  import opened Evolution
  import opened Acceptance
  import E = Endpoints

  /** Startup on any consistent key table leaves an active key, the one that was there or a new one. */
  lemma Startup(s: State, kid: string, id: Id)
    requires KeysConsistent(s.keys) && kid !in s.keys
    ensures
      var t := E.EnsureSigningKey(s, kid, id);
      && KeysConsistent(t.keys) && ActiveKids(t.keys) != {}
      && |ActiveKids(t.keys)| == (if ActiveKids(s.keys) == {} then 1 else |ActiveKids(s.keys)|)
  {
    var t := E.EnsureSigningKey(s, kid, id);
    if ActiveKids(s.keys) == {} {
      assert ActiveKids(t.keys) == {kid};
    }
  }

  /** Active keys after one step. */
  lemma ActiveAfter(env: Env, s: State, e: Event)
    requires Invariant(s) && Enabled(env, s, e)
    ensures
      var o := Step(env, s, e);
      ActiveKids(o.state.keys) ==
        if e.RotateKey? then {e.newKid}
        else if e.DeactivateKey? && o.reply.NoContent? then ActiveKids(s.keys) - {e.kid}
        else ActiveKids(s.keys)
  {
    hide Integrity, Step, Did, Enabled, ParentsSound, PairsSound, ActiveKids, ForeignKeys, TenantsCohere, LifetimesOk, KeysConsistent;
    if e.RotateKey? || e.DeactivateKey? {
      KeyEventActive(env, s, e);
    } else {
      IntegrityGivesForeignKeys(s);
      var f := StepHasEffect(env, s, e);
      if f.Elsewhere? {
        SettingKeepsKeys(env, s, e);
      } else {
        EffectKeepsSetting(env, s, f, Step(env, s, e).state);
      }
    }
  }

  lemma IntegrityGivesForeignKeys(s: State)
    requires Integrity(s)
    ensures ForeignKeys(s)
  {
  }

  lemma KeyEventActive(env: Env, s: State, e: Event)
    requires Invariant(s) && Enabled(env, s, e) && (e.RotateKey? || e.DeactivateKey?)
    ensures
      var o := Step(env, s, e);
      ActiveKids(o.state.keys) ==
        if e.RotateKey? then {e.newKid}
        else if o.reply.NoContent? then ActiveKids(s.keys) - {e.kid} else ActiveKids(s.keys)
  {
    hide E.RotateKey, E.DeactivateKey, ActiveKids, TenantsCohere, RotationSound;
    match e
    case RotateKey(kid, id) => KeysAfterRotation(s, kid, id);
    case DeactivateKey(kid) => KeysAfterDeactivation(s, kid);
  }

  lemma SettingKeepsKeys(env: Env, s: State, e: Event)
    requires ForeignKeys(s) && !e.RotateKey? && !e.DeactivateKey?
    requires IsSetting(e) || Step(env, s, e).state == s
    ensures Step(env, s, e).state.keys == s.keys
  {
    hide ForeignKeys, E.UserInfo, E.LifetimesValid, E.Login, E.Authorize, E.GrantCode, E.GrantRefresh, E.Revoke, E.RevokeEverything;
  }

  /** At least one key is active throughout a run, and never more than were active at its start. */
  lemma {:induction false} ActiveCount(env: Env, trace: seq<State>, events: seq<Event>, n: nat)
    requires IsRun(env, trace, events) && n < |trace|
    ensures 1 <= |ActiveKids(trace[n].keys)| <= |ActiveKids(trace[0].keys)|
    ensures KeysConsistent(trace[n].keys)
  {
    hide Step, ActiveKids, Integrity, RotationSound, TenantsCohere, KeysConsistent;
    RunIsContinuation(env, trace, events);
    InvariantAlways(env, trace, events, n);
    assert |ActiveKids(trace[n].keys)| > 0;
    if n > 0 {
      ActiveCount(env, trace, events, n - 1);
      InvariantAlways(env, trace, events, n - 1);
      var s, e := trace[n - 1], events[n - 1];
      assert Next(env, s, e, trace[n]);
      ActiveAfter(env, s, e);
      if e.DeactivateKey? && Step(env, s, e).reply.NoContent? {
        SubsetSize(ActiveKids(s.keys) - {e.kid}, ActiveKids(s.keys));
      }
    }
  }

  /** Event `e` takes key `kid` out of use: any rotation, or its own deactivation. */
  ghost predicate Retires(env: Env, s: State, e: Event, kid: string)
    requires ForeignKeys(s)
  {
    e.RotateKey? || (e.DeactivateKey? && e.kid == kid && Step(env, s, e).reply.NoContent?)
  }

  /** No event from `i` up to `j` retires `kid`. */
  ghost predicate Undisturbed(env: Env, trace: seq<State>, events: seq<Event>, i: nat, j: nat, kid: string)
    requires IsContinuation(env, trace, events) && i <= j < |trace|
  {
    forall m | i <= m < j :: Next(env, trace[m], events[m], trace[m + 1]) && !Retires(env, trace[m], events[m], kid)
  }

  /**
   A key active at `i` is active at `j` exactly if nothing in between retired it; so a token minted at `i`
   verifies later exactly until its key is rotated out or deactivated.
   */
  lemma {:induction false} VerifiesUntilRetired(env: Env, trace: seq<State>, events: seq<Event>, i: nat, j: nat, kid: string)
    requires IsContinuation(env, trace, events) && Invariant(trace[0]) && i <= j < |trace|
    requires kid in ActiveKids(trace[i].keys)
    ensures kid in ActiveKids(trace[j].keys) <==> Undisturbed(env, trace, events, i, j, kid)
    decreases j - i
  {
    hide Step, Invariant, StateEvolved, Enabled, ForeignKeys;
    if i < j {
      VerifiesUntilRetired(env, trace, events, i, j - 1, kid);
      var s, e := trace[j - 1], events[j - 1];
      InvariantAlways(env, trace, events, j - 1);
      assert Next(env, s, e, trace[j]);
      ActiveAfter(env, s, e);
      EvolvesAlong(env, trace, events, i, j - 1);
      EvolvesAlong(env, trace, events, j - 1, j);
      if kid !in ActiveKids(s.keys) { StaysInactive(trace[i], s, trace[j], kid); }
      FreshKid(env, s, e, trace[i], kid);
      assert Undisturbed(env, trace, events, i, j, kid) <==> Undisturbed(env, trace, events, i, j - 1, kid) && !Retires(env, s, e, kid);
    }
  }

  lemma StaysInactive(s: State, t: State, u: State, kid: string)
    requires StateEvolved(s, t) && StateEvolved(t, u) && kid in ActiveKids(s.keys) && kid !in ActiveKids(t.keys)
    ensures kid !in ActiveKids(u.keys)
  {
    hide Evolved, CodesEvolved, SignedEvolved, TenantsEvolved, UsersEvolved, ClientsEvolved;
    assert kid in t.keys;
  }

  /** A rotation's new key is not one that was there before. */
  lemma FreshKid(env: Env, s: State, e: Event, before: State, kid: string)
    requires Enabled(env, s, e) && StateEvolved(before, s) && kid in ActiveKids(before.keys)
    ensures e.RotateKey? ==> e.newKid != kid
  {
    hide Evolved, CodesEvolved, SignedEvolved, TenantsEvolved, UsersEvolved, ClientsEvolved;
    assert kid in s.keys;
  }

  /** The token's signature verifies under a published key. */
  predicate SignatureVerifies(s: State, token: string) {
    token in s.signed && s.signed[token].kid in ActiveKids(s.keys)
  }

  lemma SignatureLifetime(env: Env, trace: seq<State>, events: seq<Event>, i: nat, j: nat, token: string)
    requires IsContinuation(env, trace, events) && Invariant(trace[0]) && i <= j < |trace|
    requires SignatureVerifies(trace[i], token)
    ensures SignatureVerifies(trace[j], token) <==> Undisturbed(env, trace, events, i, j, trace[i].signed[token].kid)
  {
    hide Step, Invariant, ActiveKids, Undisturbed, Evolved, CodesEvolved, TenantsEvolved, UsersEvolved, ClientsEvolved, KeysEvolved;
    EvolvesAlong(env, trace, events, i, j);
    VerifiesUntilRetired(env, trace, events, i, j, trace[i].signed[token].kid);
  }

  // ---------- A token just minted is good ----------

  /** The token verifies under a published key, has not expired, and its row is live: userinfo accepts it. */
  ghost predicate IsGood(t: State, token: string) {
    && token in t.signed && t.signed[token].kid in ActiveKids(t.keys)
    && E.Validates(t, token) && E.Accepts(t, token)
  }

  /** A live row that expires later, signed with an active key, makes a token good. */
  lemma GoodWithRow(t: State, token: string, a: Id)
    requires AccessTokensUnique(t.accessTokens) && token in t.signed && IsRowOf(t, t.signed[token], a)
    requires t.accessTokens[a].Live? && t.now < t.accessTokens[a].row.expiresAt && t.signed[token].kid in ActiveKids(t.keys)
    ensures IsGood(t, token)
  {
    AcceptedExactly(t, token, a);
  }

  lemma RedeemedIsGood(env: Env, s: State, id: Id, clientId: Id, g: E.Generated)
    requires Invariant(s) && ForeignKeys(s) && id in s.codes && clientId in s.clients && E.IsFresh(env, s, g)
    requires Integrity(E.RedeemCode(env, s, id, clientId, g).state)
    ensures
      var t := E.RedeemCode(env, s, id, clientId, g).state;
      && IsGood(t, g.accessText)
      && g.idText in t.signed && t.signed[g.idText].IdJwt? && t.signed[g.idText].kid in ActiveKids(t.keys)
  {
    PositiveLifetime(s, s.codes[id].sessionId);
    assert ActiveKids(s.keys) != {};
    hide Invariant, ForeignKeys, E.RedeemCode, E.IsFresh, IsGood, Integrity, LifetimesPositive, ActiveKids, NewestAmong;
    var t := E.RedeemCode(env, s, id, clientId, g).state;
    RedeemedTables(env, s, id, clientId, g);
    SignedByRedeem(env, s, id, clientId, g);
    AccessUnique(t);
    SigningKeyIsActive(s.keys);
    GoodWithRow(t, g.accessText, g.accessTokenId);
  }

  lemma RotatedIsGood(env: Env, s: State, id: Id, clientId: Id, scope: string, g: E.Generated)
    requires Invariant(s) && ForeignKeys(s) && id in s.refreshTokens && clientId in s.clients && E.IsFresh(env, s, g)
    requires Integrity(E.Rotate(env, s, id, clientId, scope, g).state)
    ensures IsGood(E.Rotate(env, s, id, clientId, scope, g).state, g.accessText)
  {
    PositiveLifetime(s, s.refreshTokens[id].row.sessionId);
    assert ActiveKids(s.keys) != {};
    hide Invariant, ForeignKeys, E.Rotate, E.IsFresh, IsGood, Integrity, LifetimesPositive, ActiveKids, NewestAmong;
    var t := E.Rotate(env, s, id, clientId, scope, g).state;
    RotatedTables(env, s, id, clientId, scope, g);
    SignedByRotate(env, s, id, clientId, scope, g);
    AccessUnique(t);
    SigningKeyIsActive(s.keys);
    GoodWithRow(t, g.accessText, g.accessTokenId);
  }

  lemma PositiveLifetime(s: State, sid: Id)
    requires Invariant(s) && sid in s.sessions
    ensures s.sessions[sid].row.tenantId in s.tenants
    ensures s.tenants[s.sessions[sid].row.tenantId].accessTokenLifetime > 0
  {
    hide UniqueIndexes, RotationSound, TenantsCohere, KeysConsistent;
  }

  lemma AccessUnique(s: State)
    requires Integrity(s)
    ensures AccessTokensUnique(s.accessTokens)
  {
    hide ForeignKeys;
  }

  lemma SigningKeyIsActive(keys: map<string, SignKey>)
    requires ActiveKids(keys) != {}
    ensures FindActive(keys).Some? && FindActive(keys).value in ActiveKids(keys)
  {
  }

  /**
   In every run, the access token that a successful exchange or refresh answers verifies under a published key and is
   accepted at once, with the claims of its user; an ID token answered with it is signed with a published key too.
   */
  lemma MintedIsAccepted(env: Env, trace: seq<State>, events: seq<Event>, n: nat)
    requires IsRun(env, trace, events) && n < |events| && (events[n].ExchangeCode? || events[n].Refresh?)
    requires ForeignKeys(trace[n]) && Step(env, trace[n], events[n]).reply.Tokens?
    ensures
      var reply, t := Step(env, trace[n], events[n]).reply, trace[n + 1];
      && IsGood(t, reply.accessToken)
      && t.signed[reply.accessToken].sub in t.users
      && E.UserInfo(t, reply.accessToken)
         == E.Claims(E.ClaimsOf(t.signed[reply.accessToken].sub, t.users[t.signed[reply.accessToken].sub],
                                t.signed[reply.accessToken].scope))
      && (events[n].ExchangeCode? ==>
            reply.idToken in t.signed && t.signed[reply.idToken].IdJwt? && t.signed[reply.idToken].kid in ActiveKids(t.keys))
  {
    RunIsContinuation(env, trace, events);
    InvariantAlways(env, trace, events, n);
    assert Next(env, trace[n], events[n], trace[n + 1]);
    MintedStepIsGood(env, trace[n], events[n]);
    AcceptedGetsClaims(env, trace, events, n + 1, Step(env, trace[n], events[n]).reply.accessToken);
  }

  lemma MintedStepIsGood(env: Env, s: State, e: Event)
    requires Invariant(s) && ForeignKeys(s) && Enabled(env, s, e) && (e.ExchangeCode? || e.Refresh?)
    requires Step(env, s, e).reply.Tokens?
    ensures
      var o := Step(env, s, e);
      && IsGood(o.state, o.reply.accessToken)
      && (e.ExchangeCode? ==>
            o.reply.idToken in o.state.signed && o.state.signed[o.reply.idToken].IdJwt?
            && o.state.signed[o.reply.idToken].kid in ActiveKids(o.state.keys))
  {
    InvariantKept(env, s, e);
    var t := Step(env, s, e).state;
    assert Integrity(t);
    if e.ExchangeCode? {
      ExchangeAnswers(env, s, e.exchange, e.generated);
      var v := E.JudgeCode(env, s, e.exchange);
      RedeemedIsGood(env, s, v.codeId, v.clientId, e.generated);
    } else {
      RefreshAnswers(env, s, e.refresh, e.generated);
      var v := E.JudgeRefresh(env, s, e.refresh);
      RotatedIsGood(env, s, v.tokenId, v.clientId, E.RefreshedScope(s, v.tokenId, e.refresh.scope), e.generated);
    }
  }

  lemma ExchangeAnswers(env: Env, s: State, r: E.CodeRequest, g: E.Generated)
    requires ForeignKeys(s) && E.GrantCode(env, s, r, g).reply.Tokens?
    ensures
      var v := E.JudgeCode(env, s, r);
      && v.CodeAccepted? && E.GrantCode(env, s, r, g) == E.RedeemCode(env, s, v.codeId, v.clientId, g)
      && E.GrantCode(env, s, r, g).reply.accessToken == g.accessText && E.GrantCode(env, s, r, g).reply.idToken == g.idText
  {
    hide ForeignKeys, E.MintAccessToken, E.MintIdToken, E.MintRefreshToken, E.AuthenticateClient;
  }

  lemma RefreshAnswers(env: Env, s: State, r: E.RefreshRequest, g: E.Generated)
    requires ForeignKeys(s) && E.GrantRefresh(env, s, r, g).reply.Tokens?
    ensures
      var v := E.JudgeRefresh(env, s, r);
      && v.Rotates? && v.tokenId in s.refreshTokens && s.refreshTokens[v.tokenId].row.accessTokenId in s.accessTokens
      && E.GrantRefresh(env, s, r, g) == E.Rotate(env, s, v.tokenId, v.clientId, E.RefreshedScope(s, v.tokenId, r.scope), g)
      && E.GrantRefresh(env, s, r, g).reply.accessToken == g.accessText
  {
    hide E.MintAccessToken, E.MintRefreshToken, E.AuthenticateClient;
  }
}
