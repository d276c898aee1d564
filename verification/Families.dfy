/**
 Refresh-token families: a family is what rotation grows from one root token. In serial runs every family is
 a finite path without repetition, in one session, whose last token alone may be live, and a family that is
 revoked throughout never changes again.
 */
module Families {
  import opened Basics
  import opened Schema
  import opened Repository
  import opened Machine
  import opened Effects
  import opened Invariants
  import E = Endpoints

  type Tokens = Table<RefreshToken>

  /** `path` starts at a token without parent, and each further token is a child of the one before it. */
  ghost predicate IsLineage(tokens: Tokens, path: seq<Id>) {
    && |path| > 0
    && (forall i {:trigger path[i]} | 0 <= i < |path| :: path[i] in tokens)
    && tokens[path[0]].row.parentId.None?
    && (forall i {:trigger tokens[path[i]].row.parentId} | 0 < i < |path| :: tokens[path[i]].row.parentId == Some(path[i - 1]))
  }

  ghost predicate Leads(tokens: Tokens, path: seq<Id>, root: Id, x: Id) {
    IsLineage(tokens, path) && path[0] == root && path[|path| - 1] == x
  }

  /** `x` descends from `root`. */
  ghost predicate Descends(tokens: Tokens, root: Id, x: Id) {
    exists path :: Leads(tokens, path, root, x)
  }

  ghost function Family(tokens: Tokens, root: Id): set<Id> {
    set x | x in tokens && Descends(tokens, root, x)
  }

  /** Every token descends from some root. */
  ghost predicate Grounded(tokens: Tokens) {
    forall x | x in tokens :: exists root :: Descends(tokens, root, x)
  }

  // ---------- Lineages in any table ----------

  /** Following parents from equal tokens leads to equal tokens. */
  lemma {:induction false} SameEndSamePath(tokens: Tokens, p: seq<Id>, q: seq<Id>)
    requires IsLineage(tokens, p) && IsLineage(tokens, q)
    requires p[|p| - 1] == q[|q| - 1]
    ensures p == q
  {
    if |p| == 1 || |q| == 1 {
      assert tokens[p[|p| - 1]].row.parentId == tokens[q[|q| - 1]].row.parentId;
    } else {
      var p', q' := p[..|p| - 1], q[..|q| - 1];
      assert tokens[p[|p| - 1]].row.parentId == tokens[q[|q| - 1]].row.parentId;
      SameEndSamePath(tokens, p', q');
      assert p == p' + [p[|p| - 1]] && q == q' + [q[|q| - 1]];
    }
  }

  lemma PrefixIsLineage(tokens: Tokens, path: seq<Id>, n: nat)
    requires IsLineage(tokens, path) && 0 < n <= |path|
    ensures IsLineage(tokens, path[..n])
  {
  }

  /** Parent chains are acyclic: no token occurs twice on its lineage. */
  lemma LineageIsAcyclic(tokens: Tokens, path: seq<Id>, i: nat, j: nat)
    requires IsLineage(tokens, path) && i < j < |path|
    ensures path[i] != path[j]
  {
    if path[i] == path[j] {
      assert |path[..i + 1]| < |path[..j + 1]|;
      PrefixIsLineage(tokens, path, i + 1);
      PrefixIsLineage(tokens, path, j + 1);
      SameEndSamePath(tokens, path[..i + 1], path[..j + 1]);
    }
  }

  // ---------- Shape of a family in serial states ----------

  /** With at most one child per token, lineages with a common root are prefixes of one another. */
  lemma {:induction false} LineagesNest(tokens: Tokens, p: seq<Id>, q: seq<Id>)
    requires ParentsSound(tokens) && IsLineage(tokens, p) && IsLineage(tokens, q)
    requires p[0] == q[0] && |p| <= |q|
    ensures p == q[..|p|]
  {
    if |p| > 1 {
      var n := |p| - 1;
      PrefixIsLineage(tokens, p, n);
      LineagesNest(tokens, p[..n], q);
      assert p[n - 1] == p[..n][n - 1] == q[..n][n - 1] == q[n - 1];
      assert tokens[p[n]].row.parentId == tokens[q[n]].row.parentId;
      assert p == p[..n] + [p[n]] && q[..|p|] == q[..n] + [q[n]];
    }
  }

  /** Along a lineage the session is constant, and everything but the last token, with its access token, is revoked. */
  lemma OnlyLastLive(accessTokens: Table<AccessToken>, tokens: Tokens, path: seq<Id>, i: nat)
    requires RotationSound(accessTokens, tokens) && IsLineage(tokens, path) && i < |path| - 1
    ensures tokens[path[i]].Revoked?
    ensures accessTokens[tokens[path[i]].row.accessTokenId].Revoked?
    ensures tokens[path[i]].row.sessionId == tokens[path[i + 1]].row.sessionId
  {
    assert tokens[path[i + 1]].row.parentId == Some(path[i]);
  }

  lemma {:induction false} LineageInOneSession(tokens: Tokens, path: seq<Id>, i: nat)
    requires ParentsSound(tokens) && IsLineage(tokens, path) && i < |path|
    ensures tokens[path[i]].row.sessionId == tokens[path[0]].row.sessionId
  {
    if i > 0 {
      LineageInOneSession(tokens, path, i - 1);
      assert tokens[path[i]].row.parentId == Some(path[i - 1]);
    }
  }

  /** The whole family is one path: some lineage from the root runs through exactly its members. */
  ghost predicate IsSpine(tokens: Tokens, root: Id, path: seq<Id>) {
    && IsLineage(tokens, path) && path[0] == root
    && Family(tokens, root) == set i | 0 <= i < |path| :: path[i]
  }

  lemma PathMembersDescend(tokens: Tokens, path: seq<Id>, i: nat)
    requires IsLineage(tokens, path) && i < |path|
    ensures path[i] in Family(tokens, path[0])
  {
    PrefixIsLineage(tokens, path, i + 1);
    assert Leads(tokens, path[..i + 1], path[0], path[i]);
  }

  /** A longest lineage from the root is a spine. */
  lemma LongestIsSpine(tokens: Tokens, path: seq<Id>)
    requires ParentsSound(tokens) && IsLineage(tokens, path)
    requires forall q | IsLineage(tokens, q) && q[0] == path[0] :: |q| <= |path|
    ensures IsSpine(tokens, path[0], path)
  {
    forall x | x in Family(tokens, path[0])
      ensures exists i :: 0 <= i < |path| && path[i] == x
    {
      var q :| Leads(tokens, q, path[0], x);
      LineagesNest(tokens, q, path);
      assert path[|q| - 1] == q[|q| - 1];
    }
    forall i | 0 <= i < |path|
      ensures path[i] in Family(tokens, path[0])
    {
      PathMembersDescend(tokens, path, i);
    }
  }

  lemma LineageFits(tokens: Tokens, path: seq<Id>)
    requires IsLineage(tokens, path)
    ensures |path| <= |tokens|
  {
    forall i, j | 0 <= i < j < |path|
      ensures path[i] != path[j]
    {
      LineageIsAcyclic(tokens, path, i, j);
    }
    DistinctFits(path, tokens.Keys);
  }

  lemma {:induction false} DistinctFits(path: seq<Id>, ids: set<Id>)
    requires forall i | 0 <= i < |path| :: path[i] in ids
    requires forall i, j | 0 <= i < j < |path| :: path[i] != path[j]
    ensures |path| <= |ids|
  {
    if path != [] {
      DistinctFits(path[1..], ids - {path[0]});
    }
  }

  lemma {:induction false} ExtendToLongest(tokens: Tokens, path: seq<Id>) returns (longest: seq<Id>)
    requires IsLineage(tokens, path)
    ensures IsLineage(tokens, longest) && longest[0] == path[0]
    ensures forall q | IsLineage(tokens, q) && q[0] == path[0] :: |q| <= |longest|
    decreases |tokens| - |path|
  {
    LineageFits(tokens, path);
    if q :| IsLineage(tokens, q) && q[0] == path[0] && |q| > |path| {
      LineageFits(tokens, q);
      longest := ExtendToLongest(tokens, q);
    } else {
      longest := path;
    }
  }

  /**
   In a serial state the family of a root is a finite path without repetition in one session; every member
   but the last is revoked and so is its access token.
   */
  lemma FamilyIsPath(s: State, root: Id) returns (path: seq<Id>)
    requires Invariant(s) && root in s.refreshTokens && s.refreshTokens[root].row.parentId.None?
    ensures IsSpine(s.refreshTokens, root, path)
    ensures forall i, j | 0 <= i < j < |path| :: path[i] != path[j]
    ensures forall i | 0 <= i < |path| :: s.refreshTokens[path[i]].row.sessionId == s.refreshTokens[root].row.sessionId
    ensures forall i {:trigger path[i]} | 0 <= i < |path| - 1 ::
      && s.refreshTokens[path[i]].Revoked?
      && s.refreshTokens[path[i]].row.accessTokenId in s.accessTokens
      && s.accessTokens[s.refreshTokens[path[i]].row.accessTokenId].Revoked?
  {
    hide Integrity, TenantsCohere, LifetimesOk, KeysConsistent, IsSpine, ParentsSound, PairsSound;
    assert IsLineage(s.refreshTokens, [root]);
    path := ExtendToLongest(s.refreshTokens, [root]);
    LongestIsSpine(s.refreshTokens, path);
    forall i, j | 0 <= i < j < |path|
      ensures path[i] != path[j]
    {
      LineageIsAcyclic(s.refreshTokens, path, i, j);
    }
    forall i | 0 <= i < |path|
      ensures s.refreshTokens[path[i]].row.sessionId == s.refreshTokens[root].row.sessionId
    {
      LineageInOneSession(s.refreshTokens, path, i);
    }
    forall i {:trigger path[i]} | 0 <= i < |path| - 1
      ensures s.refreshTokens[path[i]].Revoked?
      ensures s.refreshTokens[path[i]].row.accessTokenId in s.accessTokens
      ensures s.accessTokens[s.refreshTokens[path[i]].row.accessTokenId].Revoked?
    {
      PairExists(s.accessTokens, s.refreshTokens, path[i]);
      OnlyLastLive(s.accessTokens, s.refreshTokens, path, i);
    }
  }

  lemma PairExists(accessTokens: Table<AccessToken>, tokens: Tokens, x: Id)
    requires PairsSound(accessTokens, tokens) && x in tokens
    ensures tokens[x].row.accessTokenId in accessTokens
  {
  }

  /** In a serial state a family has at most one live refresh token and at most one live access token. */
  lemma FamilyHasOneLive(s: State, root: Id, x: Id, y: Id)
    requires Invariant(s) && root in s.refreshTokens && s.refreshTokens[root].row.parentId.None?
    requires x in Family(s.refreshTokens, root) && y in Family(s.refreshTokens, root)
    ensures s.refreshTokens[x].Live? && s.refreshTokens[y].Live? ==> x == y
    ensures
      var a, b := s.refreshTokens[x].row.accessTokenId, s.refreshTokens[y].row.accessTokenId;
      && a in s.accessTokens && b in s.accessTokens
      && (s.accessTokens[a].Live? && s.accessTokens[b].Live? ==> x == y && a == b)
  {
    hide Integrity, TenantsCohere, LifetimesOk, KeysConsistent, ParentsSound, PairsSound, Descends, IsLineage;
    var path := FamilyIsPath(s, root);
    PairExists(s.accessTokens, s.refreshTokens, x);
    PairExists(s.accessTokens, s.refreshTokens, y);
    var i :| 0 <= i < |path| && path[i] == x;
    var j :| 0 <= j < |path| && path[j] == y;
  }

  /** A lineage that ends in a live token is its whole family. */
  lemma LiveEndIsFamily(tokens: Tokens, path: seq<Id>)
    requires ParentsSound(tokens) && IsLineage(tokens, path) && tokens[path[|path| - 1]].Live?
    ensures IsSpine(tokens, path[0], path)
  {
    forall q | IsLineage(tokens, q) && q[0] == path[0]
      ensures |q| <= |path|
    {
      if |q| > |path| {
        assert tokens[q[|path|]].row.parentId == Some(q[|path| - 1]);
        LineagesNest(tokens, path, q);
      }
    }
    LongestIsSpine(tokens, path);
  }

  // ---------- Families over a step ----------

  /** No row loses its place and a new row's parent, if any, was live. */
  ghost predicate Grows(a: Tokens, b: Tokens) {
    && Evolved(a, b)
    && forall x {:trigger b[x].row.parentId} | x in b && x !in a && b[x].row.parentId.Some? ::
         b[x].row.parentId.value in a && a[b[x].row.parentId.value].Live?
  }

  lemma EffectGrows(env: Env, s: State, f: Effect, t: State)
    requires ForeignKeys(s) && Did(env, s, f, t)
    ensures Grows(s.refreshTokens, t.refreshTokens)
    ensures Evolved(s.accessTokens, t.accessTokens) && Evolved(s.sessions, t.sessions)
  {
    hide ForeignKeys, E.RedeemCode, E.Rotate, ActiveKids, Paired, E.IsFresh;
    match f
    case Redeemed(id, clientId, g) =>
      FreshIds(env, s, g);
      RedeemedTables(env, s, id, clientId, g);
    case Rotated(id, clientId, scope, g) =>
      FreshIds(env, s, g);
      RotatedTables(env, s, id, clientId, scope, g);
    case _ =>
  }

  lemma StepGrows(env: Env, s: State, e: Event)
    requires Invariant(s) && Enabled(env, s, e)
    ensures
      var t := Step(env, s, e).state;
      && Grows(s.refreshTokens, t.refreshTokens)
      && Evolved(s.accessTokens, t.accessTokens) && Evolved(s.sessions, t.sessions)
  {
    hide UniqueIndexes, ParentsSound, PairsSound, TenantsCohere, LifetimesOk, KeysConsistent, Did, Enabled, Step, Grows, ForeignKeys;
    var f := StepHasEffect(env, s, e);
    EffectGrows(env, s, f, Step(env, s, e).state);
  }

  lemma LineageSurvives(a: Tokens, b: Tokens, path: seq<Id>)
    requires Evolved(a, b) && IsLineage(a, path)
    ensures IsLineage(b, path)
  {
  }

  lemma ChildDescends(tokens: Tokens, root: Id, x: Id)
    requires x in tokens && tokens[x].row.parentId.Some? && Descends(tokens, root, tokens[x].row.parentId.value)
    ensures Descends(tokens, root, x)
  {
    var path :| Leads(tokens, path, root, tokens[x].row.parentId.value);
    assert Leads(tokens, path + [x], root, x);
  }

  lemma RootDescends(tokens: Tokens, x: Id)
    requires x in tokens && tokens[x].row.parentId.None?
    ensures Descends(tokens, x, x)
  {
    assert Leads(tokens, [x], x, x);
  }

  lemma GroundedKept(a: Tokens, b: Tokens)
    requires Grounded(a) && Grows(a, b)
    ensures Grounded(b)
  {
    hide Descends;
    forall x | x in b
      ensures exists root :: Descends(b, root, x)
    {
      if x in a {
        var root :| Descends(a, root, x);
        DescentSurvives(a, b, root, x);
      } else if b[x].row.parentId.Some? {
        var root :| Descends(a, root, b[x].row.parentId.value);
        DescentSurvives(a, b, root, b[x].row.parentId.value);
        ChildDescends(b, root, x);
      } else {
        RootDescends(b, x);
      }
    }
  }

  lemma DescentSurvives(a: Tokens, b: Tokens, root: Id, x: Id)
    requires Evolved(a, b) && Descends(a, root, x)
    ensures Descends(b, root, x)
  {
    var path :| Leads(a, path, root, x);
    LineageSurvives(a, b, path);
    assert Leads(b, path, root, x);
  }

  lemma {:induction false} GroundedAlways(env: Env, trace: seq<State>, events: seq<Event>, n: nat)
    requires IsRun(env, trace, events) && n < |trace|
    ensures Grounded(trace[n].refreshTokens)
  {
    hide Invariant, Step, Grounded, Grows;
    if n == 0 {
      EmptyIsGrounded(trace[0].refreshTokens);
    } else {
      GroundedAlways(env, trace, events, n - 1);
      RunIsContinuation(env, trace, events);
      InvariantAlways(env, trace, events, n - 1);
      assert Next(env, trace[n - 1], events[n - 1], trace[n]);
      StepGrows(env, trace[n - 1], events[n - 1]);
      GroundedKept(trace[n - 1].refreshTokens, trace[n].refreshTokens);
    }
  }

  lemma EmptyIsGrounded(tokens: Tokens)
    requires tokens == map[]
    ensures Grounded(tokens)
  {
  }

  /** Every refresh token of every reachable state lies on the one path that is its family. */
  lemma EveryTokenHasItsFamily(env: Env, trace: seq<State>, events: seq<Event>, n: nat, x: Id)
    returns (root: Id, path: seq<Id>, i: nat)
    requires IsRun(env, trace, events) && n < |trace| && x in trace[n].refreshTokens
    ensures IsSpine(trace[n].refreshTokens, root, path) && i < |path| && path[i] == x
    ensures forall j, k | 0 <= j < k < |path| :: path[j] != path[k]
    ensures forall j {:trigger path[j]} | 0 <= j < |path| - 1 :: trace[n].refreshTokens[path[j]].Revoked?
  {
    hide Invariant, Step, Integrity;
    GroundedAlways(env, trace, events, n);
    RunIsContinuation(env, trace, events);
    InvariantAlways(env, trace, events, n);
    root :| Descends(trace[n].refreshTokens, root, x);
    path := FamilyIsPath(trace[n], root);
    assert x in Family(trace[n].refreshTokens, root);
    i :| 0 <= i < |path| && path[i] == x;
  }

  // ---------- A dead family stays as it is ----------

  ghost predicate DeadFamily(tokens: Tokens, root: Id) {
    root in tokens && forall x | x in Family(tokens, root) :: tokens[x].Revoked?
  }

  lemma DeadFamilyKept(a: Tokens, b: Tokens, root: Id)
    requires Grows(a, b) && DeadFamily(a, root)
    ensures DeadFamily(b, root) && Family(b, root) == Family(a, root)
  {
    forall x | x in Family(a, root)
      ensures x in Family(b, root)
    {
      DescentSurvives(a, b, root, x);
    }
    forall x | x in Family(b, root)
      ensures x in Family(a, root)
    {
      var path :| Leads(b, path, root, x);
      DeadLineageIsOld(a, b, path, |path| - 1);
      assert path[..|path|] == path;
      assert Leads(a, path, root, x);
    }
  }

  lemma {:induction false} DeadLineageIsOld(a: Tokens, b: Tokens, path: seq<Id>, i: nat)
    requires Grows(a, b) && IsLineage(b, path) && DeadFamily(a, path[0]) && i < |path|
    ensures IsLineage(a, path[..i + 1])
  {
    if i > 0 {
      DeadLineageIsOld(a, b, path, i - 1);
      var before := path[..i];
      assert Leads(a, before, path[0], path[i - 1]);
      assert path[i - 1] in Family(a, path[0]);
      assert b[path[i]].row.parentId == Some(path[i - 1]);
    }
  }

  /** On every continuation, a family that is revoked throughout gains no member, live or revoked. */
  lemma {:induction false} DeadFamilyForever(env: Env, trace: seq<State>, events: seq<Event>, root: Id, n: nat)
    requires IsContinuation(env, trace, events) && Invariant(trace[0]) && n < |trace|
    requires DeadFamily(trace[0].refreshTokens, root)
    ensures DeadFamily(trace[n].refreshTokens, root)
    ensures Family(trace[n].refreshTokens, root) == Family(trace[0].refreshTokens, root)
  {
    hide Invariant, Step, DeadFamily, Grows, Family;
    if n > 0 {
      DeadFamilyForever(env, trace, events, root, n - 1);
      InvariantAlways(env, trace, events, n - 1);
      assert Next(env, trace[n - 1], events[n - 1], trace[n]);
      StepGrows(env, trace[n - 1], events[n - 1]);
      DeadFamilyKept(trace[n - 1].refreshTokens, trace[n].refreshTokens, root);
    }
  }
}
