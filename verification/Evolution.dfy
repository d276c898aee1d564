/** What never changes back along a run: rows stay, revocations, uses and deactivations are final. */
module Evolution {
  import opened Basics
  import opened Schema
  import opened Repository
  import opened Machine
  import opened Effects
  import opened Invariants
  import F = Families
  import E = Endpoints

  /** Everything but `used_at` stays, and a used code stays used. */
  ghost predicate CodesEvolved(a: map<Id, AuthCode>, b: map<Id, AuthCode>) {
    forall x | x in a ::
      x in b && b[x].(usedAt := None) == a[x].(usedAt := None) && (a[x].IsUsed() ==> b[x] == a[x])
  }

  ghost predicate TenantsEvolved(a: map<Id, Tenant>, b: map<Id, Tenant>) {
    forall x | x in a :: x in b && b[x].code == a[x].code
  }

  ghost predicate UsersEvolved(a: map<Id, User>, b: map<Id, User>) {
    forall x | x in a :: x in b && b[x].tenantId == a[x].tenantId
  }

  ghost predicate ClientsEvolved(a: map<Id, Client>, b: map<Id, Client>) {
    forall x | x in a ::
      && x in b && b[x].tenantId == a[x].tenantId && b[x].clientId == a[x].clientId
      && (b[x].IsActive() ==> a[x].IsActive())
  }

  /** An inactive key stays inactive. */
  ghost predicate KeysEvolved(a: map<string, SignKey>, b: map<string, SignKey>) {
    forall k | k in a ::
      && k in b && b[k].id == a[k].id && b[k].createdAt == a[k].createdAt
      && (b[k].active ==> b[k] == a[k])
  }

  ghost predicate SignedEvolved(a: map<string, Jwt>, b: map<string, Jwt>) {
    forall x | x in a :: x in b && b[x] == a[x]
  }

  ghost predicate StateEvolved(s: State, t: State) {
    && s.now <= t.now
    && Evolved(s.sessions, t.sessions)
    && Evolved(s.accessTokens, t.accessTokens)
    && Evolved(s.refreshTokens, t.refreshTokens)
    && CodesEvolved(s.codes, t.codes)
    && TenantsEvolved(s.tenants, t.tenants)
    && UsersEvolved(s.users, t.users)
    && ClientsEvolved(s.clients, t.clients)
    && KeysEvolved(s.keys, t.keys)
    && SignedEvolved(s.signed, t.signed)
  }

  lemma StateEvolvedReflexive(s: State)
    ensures StateEvolved(s, s)
  {
  }

  lemma StateEvolvedTransitive(s: State, t: State, u: State)
    requires StateEvolved(s, t) && StateEvolved(t, u)
    ensures StateEvolved(s, u)
  {
    hide Evolved;
    EvolvedTransitive(s.sessions, t.sessions, u.sessions);
    EvolvedTransitive(s.accessTokens, t.accessTokens, u.accessTokens);
    EvolvedTransitive(s.refreshTokens, t.refreshTokens, u.refreshTokens);
  }

  lemma EffectEvolves(env: Env, s: State, f: Effect, t: State)
    requires ForeignKeys(s) && Did(env, s, f, t)
    ensures Evolved(s.sessions, t.sessions) && Evolved(s.accessTokens, t.accessTokens) && Evolved(s.refreshTokens, t.refreshTokens)
    ensures CodesEvolved(s.codes, t.codes)
  {
    hide ForeignKeys, E.RedeemCode, E.Rotate, E.IsFresh, ActiveKids, Paired, Evolved;
    F.EffectGrows(env, s, f, t);
    match f
    case Redeemed(id, clientId, g) => RedeemedTables(env, s, id, clientId, g);
    case Rotated(id, clientId, scope, g) => RotatedTables(env, s, id, clientId, scope, g);
    case _ =>
  }

  lemma SignedByEffect(env: Env, s: State, f: Effect, t: State)
    requires ForeignKeys(s) && Did(env, s, f, t)
    ensures SignedEvolved(s.signed, t.signed)
  {
    hide ForeignKeys, ActiveKids, Paired, E.RedeemCode, E.Rotate, E.IsFresh;
    match f
    case Redeemed(id, clientId, g) => RedemptionOnlyAdds(env, s, id, clientId, g);
    case Rotated(id, clientId, scope, g) => RotationOnlyAdds(env, s, id, clientId, scope, g);
    case _ =>
  }

  lemma RedemptionOnlyAdds(env: Env, s: State, id: Id, clientId: Id, g: E.Generated)
    requires ForeignKeys(s) && id in s.codes && clientId in s.clients && E.IsFresh(env, s, g)
    ensures SignedEvolved(s.signed, E.RedeemCode(env, s, id, clientId, g).state.signed)
  {
    FreshTexts(env, s, g);
    if ActiveKids(s.keys) != {} {
      hide ForeignKeys, E.IsFresh, E.RedeemCode, ActiveKids;
      RedeemedSigned(env, s, id, clientId, g);
    } else {
      hide ForeignKeys, E.IsFresh;
    }
  }

  lemma RotationOnlyAdds(env: Env, s: State, id: Id, clientId: Id, scope: string, g: E.Generated)
    requires ForeignKeys(s) && id in s.refreshTokens && clientId in s.clients && E.IsFresh(env, s, g)
    ensures SignedEvolved(s.signed, E.Rotate(env, s, id, clientId, scope, g).state.signed)
  {
    hide ForeignKeys;
  }

  lemma SettingEvolves(env: Env, s: State, e: Event)
    requires ForeignKeys(s) && Enabled(env, s, e) && IsSetting(e)
    ensures
      var t := Step(env, s, e).state;
      && s.now <= t.now && TenantsEvolved(s.tenants, t.tenants) && UsersEvolved(s.users, t.users)
      && ClientsEvolved(s.clients, t.clients) && KeysEvolved(s.keys, t.keys)
  {
    hide ForeignKeys, E.UserInfo, E.CreateTenant, E.UpdateTenant, E.RotateKey, E.DeactivateKey;
    hide E.Login, E.Authorize, E.GrantCode, E.GrantRefresh, E.Revoke, E.RevokeEverything, E.IsFresh;
    hide TenantsEvolved, UsersEvolved, ClientsEvolved, KeysEvolved, CanSaveClient, CanSaveUser, CanCreateKey;
    SameSettingEvolves(s, s);
    match e
    case RotateKey(kid, id) => KeyStepFrame(s, kid, id); KeysStepEvolve(s, kid, id);
    case DeactivateKey(kid) => KeyStepFrame(s, kid, 0); KeysStepEvolve(s, kid, 0);
    case CreateTenant(id, code, l, ok) => TenantStepFrame(s, id, code, l, ok); TenantsStepEvolve(s, id, code, l, ok);
    case UpdateTenant(id, l, ok) => TenantStepFrame(s, id, "", l, ok); TenantsStepEvolve(s, id, "", l, ok);
    case SaveClient(id, c) => ClientsStepEvolve(s, id, c);
    case SaveUser(id, u) => UsersStepEvolve(s, id, u);
    case _ =>
  }

  lemma KeysStepEvolve(s: State, kid: string, id: Id)
    ensures CanCreateKey(s, kid, id) ==> KeysEvolved(s.keys, E.RotateKey(s, kid, id).state.keys)
    ensures KeysEvolved(s.keys, E.DeactivateKey(s, kid).state.keys)
  {
    hide KeysEvolved, DeactivateIn, ActiveKids;
    DeactivatedKeysEvolve(s.keys, {kid}, s.now);
    DeactivatedKeysEvolve(s.keys, ActiveKids(s.keys), s.now);
    if kid !in s.keys {
      CreatedKeyEvolves(s.keys, DeactivateIn(s.keys, ActiveKids(s.keys), s.now), kid, SignKey(id, s.now, true, None));
    }
    SameSettingEvolves(s, s);
  }

  lemma DeactivatedKeysEvolve(keys: map<string, SignKey>, kids: set<string>, now: Time)
    ensures KeysEvolved(keys, DeactivateIn(keys, kids, now))
  {
  }

  lemma CreatedKeyEvolves(keys: map<string, SignKey>, deactivated: map<string, SignKey>, kid: string, key: SignKey)
    requires KeysEvolved(keys, deactivated) && kid !in keys
    ensures KeysEvolved(keys, deactivated[kid := key])
  {
  }

  lemma TenantsStepEvolve(s: State, id: Id, code: string, l: E.Lifetimes, ok: bool)
    ensures id !in s.tenants ==> TenantsEvolved(s.tenants, E.CreateTenant(s, id, code, l, ok).state.tenants)
    ensures TenantsEvolved(s.tenants, E.UpdateTenant(s, id, l, ok).state.tenants)
  {
    hide E.CreateTenant, E.UpdateTenant, TenantsEvolved;
    CreatedTenantEvolves(s, id, code, l, ok);
    UpdatedTenantEvolves(s, id, l, ok);
  }

  lemma CreatedTenantEvolves(s: State, id: Id, code: string, l: E.Lifetimes, ok: bool)
    ensures id !in s.tenants ==> TenantsEvolved(s.tenants, E.CreateTenant(s, id, code, l, ok).state.tenants)
  {
    hide E.LifetimesValid, E.OrDefault, FindTenantByCode, TenantsEvolved;
    var t := E.CreateTenant(s, id, code, l, ok).state;
    SameSettingEvolves(s, s);
    if t != s && id !in s.tenants {
      AddedTenantEvolves(s.tenants, id, t.tenants[id]);
    }
  }

  lemma AddedTenantEvolves(tenants: map<Id, Tenant>, id: Id, tenant: Tenant)
    requires id !in tenants
    ensures TenantsEvolved(tenants, tenants[id := tenant])
  {
  }

  lemma UpdatedTenantEvolves(s: State, id: Id, l: E.Lifetimes, ok: bool)
    ensures TenantsEvolved(s.tenants, E.UpdateTenant(s, id, l, ok).state.tenants)
  {
    hide E.LifetimesValid, E.OrDefault;
  }

  lemma ClientsStepEvolve(s: State, id: Id, c: Client)
    requires CanSaveClient(s, id, c)
    ensures ClientsEvolved(s.clients, s.clients[id := c])
  {
  }

  lemma UsersStepEvolve(s: State, id: Id, u: User)
    requires CanSaveUser(s, id, u)
    ensures UsersEvolved(s.users, s.users[id := u])
  {
  }

  lemma StepEvolves(env: Env, s: State, e: Event)
    requires Invariant(s) && Enabled(env, s, e)
    ensures StateEvolved(s, Step(env, s, e).state)
  {
    hide ForeignKeys, UniqueIndexes, Step, Did, Enabled, ParentsSound, PairsSound, Evolved, CodesEvolved, SignedEvolved;
    hide TenantsEvolved, UsersEvolved, ClientsEvolved, KeysEvolved;
    var f := StepHasEffect(env, s, e);
    var t := Step(env, s, e).state;
    StateEvolvedReflexive(s);
    EffectEvolves(env, s, f, t);
    SignedByEffect(env, s, f, t);
    if f.Elsewhere? {
      if t != s { SettingEvolves(env, s, e); }
    } else {
      EffectKeepsSetting(env, s, f, t);
      SameSettingEvolves(s, t);
    }
  }

  lemma SameSettingEvolves(s: State, t: State)
    requires SameSetting(s, t)
    ensures TenantsEvolved(s.tenants, t.tenants) && UsersEvolved(s.users, t.users)
    ensures ClientsEvolved(s.clients, t.clients) && KeysEvolved(s.keys, t.keys)
  {
  }

  lemma {:induction false} EvolvesAlong(env: Env, trace: seq<State>, events: seq<Event>, i: nat, j: nat)
    requires IsContinuation(env, trace, events) && Invariant(trace[0]) && i <= j < |trace|
    ensures StateEvolved(trace[i], trace[j])
    decreases j - i
  {
    hide Invariant, Step, StateEvolved;
    if i == j {
      StateEvolvedReflexive(trace[i]);
    } else {
      EvolvesAlong(env, trace, events, i, j - 1);
      InvariantAlways(env, trace, events, j - 1);
      assert Next(env, trace[j - 1], events[j - 1], trace[j]);
      StepEvolves(env, trace[j - 1], events[j - 1]);
      StateEvolvedTransitive(trace[i], trace[j - 1], trace[j]);
    }
  }
}
