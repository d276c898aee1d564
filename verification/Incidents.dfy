/**
 Incident response: a campaign of bulk revocations, whenever each request comes, revokes what one request for all its
 sessions would have, with counts that add up.
 */
module Incidents {
  import opened Basics
  import opened Schema
  import opened Repository
  import opened Machine
  import opened Effects
  import opened Invariants
  import E = Endpoints

  datatype Totals = Totals(sessions: nat, accessTokens: nat, refreshTokens: nat)

  function Plus(a: Totals, b: Totals): Totals {
    Totals(a.sessions + b.sessions, a.accessTokens + b.accessTokens, a.refreshTokens + b.refreshTokens)
  }

  function TotalsOf(o: E.Outcome): Totals
    requires o.reply.RevokedCounts?
  {
    Totals(o.reply.sessions, o.reply.accessTokens, o.reply.refreshTokens)
  }

  lemma RevokeEverythingTables(s: State, which: set<Id>)
    ensures
      var o := E.RevokeEverything(s, which);
      && o.state == s.(sessions := RevokeIn(s.sessions, which, s.now),
                       accessTokens := RevokeIn(s.accessTokens, AccessTokensOf(s, which), s.now),
                       refreshTokens := RevokeIn(s.refreshTokens, RefreshTokensOf(s, which), s.now))
      && (forall more :: AccessTokensOf(o.state, more) == AccessTokensOf(s, more))
      && (forall more :: RefreshTokensOf(o.state, more) == RefreshTokensOf(s, more))
  {
    var s1 := RevokeSessions(s, which);
    var s2 := RevokeAccessTokens(s1, AccessTokensOf(s1, which));
    assert AccessTokensOf(s1, which) == AccessTokensOf(s, which);
    assert RefreshTokensOf(s2, which) == RefreshTokensOf(s, which);
  }

  lemma TokensOfBoth(s: State, a: set<Id>, b: set<Id>)
    ensures AccessTokensOf(s, a + b) == AccessTokensOf(s, a) + AccessTokensOf(s, b)
    ensures RefreshTokensOf(s, a + b) == RefreshTokensOf(s, a) + RefreshTokensOf(s, b)
  {
  }

  /** Revoking one set of sessions and then another is revoking their union, and the counts add up. */
  lemma RevokeTwo(s: State, a: set<Id>, b: set<Id>)
    ensures
      var first := E.RevokeEverything(s, a);
      var second := E.RevokeEverything(first.state, b);
      var both := E.RevokeEverything(s, a + b);
      second.state == both.state && Plus(TotalsOf(first), TotalsOf(second)) == TotalsOf(both)
  {
    hide E.RevokeEverything, RevokeIn, LiveIn;
    var first := E.RevokeEverything(s, a);
    RevokeEverythingTables(s, a);
    RevokeEverythingTables(first.state, b);
    RevokeEverythingTables(s, a + b);
    TokensOfBoth(s, a, b);
    hide AccessTokensOf, RefreshTokensOf;
    RevokeTwice(s.sessions, a, b, s.now);
    RevokeTwice(s.accessTokens, AccessTokensOf(s, a), AccessTokensOf(s, b), s.now);
    RevokeTwice(s.refreshTokens, RefreshTokensOf(s, a), RefreshTokensOf(s, b), s.now);
    CountsOf(s, a);
    CountsOf(first.state, b);
    CountsOf(s, a + b);
  }

  lemma CountsOf(s: State, which: set<Id>)
    ensures E.RevokeEverything(s, which).reply ==
      E.RevokedCounts(|LiveIn(s.sessions, which)|, |LiveIn(s.accessTokens, AccessTokensOf(s, which))|,
                      |LiveIn(s.refreshTokens, RefreshTokensOf(s, which))|)
  {
  }

  lemma RevokeNone(s: State)
    ensures E.RevokeEverything(s, {}).state == s && TotalsOf(E.RevokeEverything(s, {})) == Totals(0, 0, 0)
  {
    RevokeEverythingTables(s, {});
    assert LiveIn(s.sessions, {}) == {};
    assert AccessTokensOf(s, {}) == {} && RefreshTokensOf(s, {}) == {};
    assert LiveIn(s.accessTokens, {}) == {} && LiveIn(s.refreshTokens, {}) == {};
    assert RevokeIn(s.sessions, {}, s.now) == s.sessions;
    assert RevokeIn(s.accessTokens, {}, s.now) == s.accessTokens;
    assert RevokeIn(s.refreshTokens, {}, s.now) == s.refreshTokens;
  }

  // ---------- Revocations at different times ----------

  /** The same rows, of which the same are revoked, if perhaps at other times. */
  ghost predicate SameSplit<T>(a: Table<T>, b: Table<T>) {
    a.Keys == b.Keys && forall id | id in a :: id in b && a[id].row == b[id].row && (a[id].Live? <==> b[id].Live?)
  }

  ghost predicate SameRevoked(s: State, t: State) {
    SameSplit(s.sessions, t.sessions) && SameSplit(s.accessTokens, t.accessTokens) && SameSplit(s.refreshTokens, t.refreshTokens)
  }

  lemma RevokeKeepsSplit<T>(a: Table<T>, b: Table<T>, which: set<Id>, now: Time, later: Time)
    requires SameSplit(a, b)
    ensures SameSplit(RevokeIn(a, which, now), RevokeIn(b, which, later))
    ensures LiveIn(a, which) == LiveIn(b, which)
  {
  }

  /** One bulk revocation, at whatever time, does the same to states that agree on what is revoked, and counts the same. */
  lemma RevokeKeepsSame(s: State, t: State, which: set<Id>)
    requires SameRevoked(s, t)
    ensures SameRevoked(E.RevokeEverything(s, which).state, E.RevokeEverything(t, which).state)
    ensures E.RevokeEverything(s, which).reply == E.RevokeEverything(t, which).reply
  {
    assert AccessTokensOf(s, which) == AccessTokensOf(t, which) && RefreshTokensOf(s, which) == RefreshTokensOf(t, which);
    hide E.RevokeEverything, SameSplit, RevokeIn, LiveIn, AccessTokensOf, RefreshTokensOf;
    RevokeEverythingTables(s, which);
    RevokeEverythingTables(t, which);
    CountsOf(s, which);
    CountsOf(t, which);
    RevokeKeepsSplit(s.sessions, t.sessions, which, s.now, t.now);
    RevokeKeepsSplit(s.accessTokens, t.accessTokens, AccessTokensOf(s, which), s.now, t.now);
    RevokeKeepsSplit(s.refreshTokens, t.refreshTokens, RefreshTokensOf(s, which), s.now, t.now);
  }

  // ---------- Campaigns ----------

  predicate IsIncident(e: Event) { e.RevokeAll? || e.RevokeTenant? || e.RevokeUser? }

  /** A campaign is a part of a run with incident requests only, apart from ticks, userinfo and administration. */
  ghost predicate IsCampaign(env: Env, trace: seq<State>, events: seq<Event>) {
    && IsContinuation(env, trace, events) && Invariant(trace[0])
    && forall i | 0 <= i < |events| :: IsIncident(events[i]) || IsSetting(events[i])
  }

  /** The sessions an incident request is about. */
  function Struck(s: State, e: Event): set<Id> {
    match e
    case RevokeAll => s.sessions.Keys
    case RevokeTenant(id) => SessionsOfTenant(s, id)
    case RevokeUser(id) => SessionsOfUser(s, id)
    case _ => {}
  }

  ghost function StruckBefore(trace: seq<State>, events: seq<Event>, n: nat): set<Id>
    requires n <= |events| < |trace|
  {
    if n == 0 then {} else StruckBefore(trace, events, n - 1) + Struck(trace[n - 1], events[n - 1])
  }

  /** The row counts the first n requests answered, summed. */
  ghost function TotalsBefore(env: Env, trace: seq<State>, events: seq<Event>, n: nat): Totals
    requires IsContinuation(env, trace, events) && n <= |events|
  {
    if n == 0 then Totals(0, 0, 0)
    else
      assert Next(env, trace[n - 1], events[n - 1], trace[n]);
      var o := Step(env, trace[n - 1], events[n - 1]);
      Plus(TotalsBefore(env, trace, events, n - 1),
           if IsIncident(events[n - 1]) && o.reply.RevokedCounts? then TotalsOf(o) else Totals(0, 0, 0))
  }

  lemma IncidentStep(env: Env, s: State, e: Event)
    requires ForeignKeys(s) && IsIncident(e)
    ensures Step(env, s, e) == E.RevokeEverything(s, Struck(s, e))
  {
    hide E.RevokeEverything, ForeignKeys;
  }

  lemma SettingChangesNoRow(env: Env, s: State, e: Event)
    requires ForeignKeys(s) && IsSetting(e)
    ensures SameRevoked(Step(env, s, e).state, s) && Struck(s, e) == {}
  {
    hide ForeignKeys, Step;
    SettingIsElsewhere(env, s, e);
  }

  lemma SameRevokedTransitive(s: State, t: State, u: State)
    requires SameRevoked(s, t) && SameRevoked(t, u)
    ensures SameRevoked(s, u)
  {
  }

  /**
   Any campaign, at any times, in any order and with any overlap, revokes exactly the rows that one revocation of all its
   sessions at its start would have revoked, and its row counts sum to that one's.
   */
  lemma {:induction false} CampaignIsOneRevocation(env: Env, trace: seq<State>, events: seq<Event>, n: nat)
    requires IsCampaign(env, trace, events) && n < |trace|
    ensures
      var once := E.RevokeEverything(trace[0], StruckBefore(trace, events, n));
      && SameRevoked(trace[n], once.state)
      && TotalsBefore(env, trace, events, n) == TotalsOf(once)
  {
    hide Invariant, Step, E.RevokeEverything, ForeignKeys, SameRevoked, IsSetting, Enabled;
    if n == 0 {
      RevokeNone(trace[0]);
      SameAsItself(trace[0]);
    } else {
      CampaignIsOneRevocation(env, trace, events, n - 1);
      var s, e := trace[n - 1], events[n - 1];
      var before := StruckBefore(trace, events, n - 1);
      var once := E.RevokeEverything(trace[0], before).state;
      assert Next(env, s, e, trace[n]);
      if IsIncident(e) {
        var which := Struck(s, e);
        IncidentStep(env, s, e);
        CountsOf(s, which);
        RevokeKeepsSame(s, once, which);
        RevokeTwo(trace[0], before, which);
      } else {
        SettingChangesNoRow(env, s, e);
        SameRevokedTransitive(trace[n], s, once);
        assert before + Struck(s, e) == before;
      }
    }
  }

  lemma SameAsItself(s: State)
    ensures SameRevoked(s, s)
  {
  }

  lemma {:induction false} InStruck(trace: seq<State>, events: seq<Event>, n: nat, x: Id)
    requires n <= |events| < |trace|
    ensures x in StruckBefore(trace, events, n) <==> exists i :: 0 <= i < n && x in Struck(trace[i], events[i])
  {
    hide Struck;
    if n > 0 {
      InStruck(trace, events, n - 1, x);
      assert StruckBefore(trace, events, n) == StruckBefore(trace, events, n - 1) + Struck(trace[n - 1], events[n - 1]);
    }
  }

  lemma CampaignLength(env: Env, trace: seq<State>, events: seq<Event>)
    requires IsCampaign(env, trace, events)
    ensures |trace| == |events| + 1
  {
  }

  /** During a campaign no session is added, and sessions keep their tenant and user: a request strikes what it would have struck at the start. */
  lemma StruckFromStart(env: Env, trace: seq<State>, events: seq<Event>, i: nat)
    requires IsCampaign(env, trace, events) && i < |events|
    ensures Struck(trace[i], events[i]) == Struck(trace[0], events[i])
  {
    hide IsCampaign, E.RevokeEverything;
    CampaignLength(env, trace, events);
    CampaignIsOneRevocation(env, trace, events, i);
    var once := E.RevokeEverything(trace[0], StruckBefore(trace, events, i)).state;
    RevokeEverythingTables(trace[0], StruckBefore(trace, events, i));
    assert trace[i].sessions.Keys == trace[0].sessions.Keys;
    assert forall x | x in trace[0].sessions :: trace[i].sessions[x].row == once.sessions[x].row == trace[0].sessions[x].row;
  }

  /** What a whole campaign strikes, in terms of its start. */
  lemma StruckByCampaign(env: Env, trace: seq<State>, events: seq<Event>, x: Id)
    requires IsCampaign(env, trace, events)
    ensures x in StruckBefore(trace, events, |events|) <==> exists e :: e in events && x in Struck(trace[0], e)
  {
    hide IsCampaign, Struck, StruckBefore;
    CampaignLength(env, trace, events);
    InStruck(trace, events, |events|, x);
    if i :| 0 <= i < |events| && x in Struck(trace[i], events[i]) {
      StruckFromStart(env, trace, events, i);
      assert events[i] in events;
    }
    if e :| e in events && x in Struck(trace[0], e) {
      var i :| 0 <= i < |events| && events[i] == e;
      StruckFromStart(env, trace, events, i);
    }
  }

  // ---------- Tenants and users ----------

  /** Revoking every tenant in turn, at any times and in any order, revokes what revoking all would have, with the same totals. */
  lemma TenantByTenantIsAll(env: Env, trace: seq<State>, events: seq<Event>)
    requires IsCampaign(env, trace, events)
    requires forall e | e in events && IsIncident(e) :: e.RevokeTenant?
    requires forall t | t in trace[0].tenants :: RevokeTenant(t) in events
    ensures SameRevoked(trace[|events|], E.RevokeAll(trace[0]).state)
    ensures TotalsBefore(env, trace, events, |events|) == TotalsOf(E.RevokeAll(trace[0]))
  {
    hide E.RevokeEverything, IsCampaign, SameRevoked, TotalsBefore, StruckBefore, IsContinuation;
    CampaignLength(env, trace, events);
    var s := trace[0];
    forall x
      ensures x in StruckBefore(trace, events, |events|) <==> x in s.sessions.Keys
    {
      StruckByCampaign(env, trace, events, x);
      if x in s.sessions {
        SessionOwners(env, trace, events, x);
        assert x in Struck(s, RevokeTenant(s.sessions[x].row.tenantId));
      }
    }
    assert StruckBefore(trace, events, |events|) == s.sessions.Keys;
    CampaignIsOneRevocation(env, trace, events, |events|);
  }

  /** Revoking every user of a tenant in turn, at any times and in any order, revokes what revoking the tenant would have. */
  lemma UserByUserIsTenant(env: Env, trace: seq<State>, events: seq<Event>, tenantId: Id)
    requires IsCampaign(env, trace, events)
    requires forall e | e in events && IsIncident(e) ::
               e.RevokeUser? && e.userId in trace[0].users && trace[0].users[e.userId].tenantId == tenantId
    requires forall u | u in trace[0].users && trace[0].users[u].tenantId == tenantId :: RevokeUser(u) in events
    ensures SameRevoked(trace[|events|], E.RevokeTenant(trace[0], tenantId).state)
    ensures TotalsBefore(env, trace, events, |events|) == TotalsOf(E.RevokeTenant(trace[0], tenantId))
  {
    hide E.RevokeEverything, IsCampaign, SameRevoked, TotalsBefore, StruckBefore, IsContinuation;
    CampaignLength(env, trace, events);
    var s := trace[0];
    forall x
      ensures x in StruckBefore(trace, events, |events|) <==> x in SessionsOfTenant(s, tenantId)
    {
      StruckByCampaign(env, trace, events, x);
      if x in s.sessions {
        SessionOwners(env, trace, events, x);
        assert x in Struck(s, RevokeUser(s.sessions[x].row.userId));
      }
    }
    assert StruckBefore(trace, events, |events|) == SessionsOfTenant(s, tenantId);
    CampaignIsOneRevocation(env, trace, events, |events|);
  }

  lemma SessionOwners(env: Env, trace: seq<State>, events: seq<Event>, x: Id)
    requires IsCampaign(env, trace, events) && x in trace[0].sessions
    ensures
      var row := trace[0].sessions[x].row;
      && row.tenantId in trace[0].tenants
      && row.userId in trace[0].users && trace[0].users[row.userId].tenantId == row.tenantId
  {
    hide UniqueIndexes, IsContinuation, RotationSound;
  }

  /** Repeating a revocation, at any later time, affects no row and changes nothing. */
  lemma RepeatDoesNothing(s: State, which: set<Id>, later: Time)
    ensures
      var t := E.RevokeEverything(s, which).state.(now := later);
      var again := E.RevokeEverything(t, which);
      again.state == t && TotalsOf(again) == Totals(0, 0, 0)
  {
    hide E.RevokeEverything;
    var t := E.RevokeEverything(s, which).state.(now := later);
    RevokeEverythingTables(s, which);
    RevokeEverythingTables(t, which);
    CountsOf(t, which);
    assert AccessTokensOf(t, which) == AccessTokensOf(s, which) && RefreshTokensOf(t, which) == RefreshTokensOf(s, which);
    RevokeNothing(t.sessions, which, later);
    RevokeNothing(t.accessTokens, AccessTokensOf(t, which), later);
    RevokeNothing(t.refreshTokens, RefreshTokensOf(t, which), later);
  }
}
