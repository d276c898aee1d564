/**
 Whole runs of the interleaved token endpoint: what holds at every point, and where every token comes from.
 One request mints at most once, from a token or code that was unspent when the request read it; how many
 children a refresh token gets is bounded by how many requests read it in time.
 */
module MicroRuns {
  import opened Basics
  import opened Schema
  import opened Repository
  import opened Micro
  import opened MicroInvariants
  import M = Machine
  import E = Endpoints

  lemma InitialIsSound(m: System)
    requires IsInitial(m)
    ensures Invariant(m)
  {
    hide ForeignKeys, UniqueIndexes;
  }

  lemma {:induction false} InvariantAlways(env: Env, trace: seq<System>, steps: seq<Step>, n: nat)
    requires IsPath(env, trace, steps) && Invariant(trace[0]) && n < |trace|
    ensures Invariant(trace[n])
    decreases n
  {
    hide Invariant, After, Enabled;
    if n > 0 {
      InvariantAlways(env, trace, steps, n - 1);
      assert Next(env, trace[n - 1], steps[n - 1], trace[n]);
      StepKeepsInvariant(env, trace[n - 1], steps[n - 1]);
    }
  }

  /** Along any path rows stay, codes stay used and a first revocation time never changes. */
  lemma {:induction false} GrownAlong(env: Env, trace: seq<System>, steps: seq<Step>, i: nat, j: nat)
    requires IsPath(env, trace, steps) && Invariant(trace[0]) && i <= j < |trace|
    ensures Grown(trace[i].db, trace[j].db)
    decreases j - i
  {
    hide Invariant, After, Enabled, Grown;
    if i == j {
      GrownReflexive(trace[i].db);
    } else {
      GrownAlong(env, trace, steps, i, j - 1);
      InvariantAlways(env, trace, steps, j - 1);
      assert Next(env, trace[j - 1], steps[j - 1], trace[j]);
      StepKeepsInvariant(env, trace[j - 1], steps[j - 1]);
      GrownTransitive(trace[i].db, trace[j - 1].db, trace[j].db);
    }
  }

  /**
   After any interleaving: every parent is revoked and in its child's session, every refresh token is in its access
   token's session, and every access token and ID token was minted from a revoked token or a used code of its session.
   */
  lemma AnyInterleaving(env: Env, trace: seq<System>, steps: seq<Step>, n: nat)
    requires IsRun(env, trace, steps) && n < |trace|
    ensures
      var db := trace[n].db;
      && (forall x | x in db.refreshTokens ::
            var row := db.refreshTokens[x].row;
            && row.accessTokenId in db.accessTokens && db.accessTokens[row.accessTokenId].row.sessionId == row.sessionId
            && (row.parentId.Some? ==>
                  && row.parentId.value in db.refreshTokens && db.refreshTokens[row.parentId.value].Revoked?
                  && db.refreshTokens[row.parentId.value].row.sessionId == row.sessionId))
      && (forall x | x in db.accessTokens ::
            && x in trace[n].accessOrigins
            && match trace[n].accessOrigins[x]
               case OfToken(_, _, p, token, _, _) =>
                 && p in db.refreshTokens && db.refreshTokens[p].Revoked? && db.refreshTokens[p].row == token
                 && token.sessionId == db.accessTokens[x].row.sessionId
               case OfCode(_, _, c, code, _) =>
                 && c in db.codes && db.codes[c].IsUsed() && db.codes[c].sessionId == db.accessTokens[x].row.sessionId
                 && db.codes[c].code == code.code)
      && (forall x | x in db.idTokens ::
            && x in trace[n].idOrigins && trace[n].idOrigins[x].OfCode?
            && trace[n].idOrigins[x].codeId in db.codes && db.codes[trace[n].idOrigins[x].codeId].IsUsed()
            && db.codes[trace[n].idOrigins[x].codeId].sessionId == db.idTokens[x].sessionId)
  {
    hide ForeignKeys, UniqueIndexes, ThreadsSound, IsPath;
    InitialIsSound(trace[0]);
    InvariantAlways(env, trace, steps, n);
  }

  /** A first revocation time, once written, is what every later state shows, whatever else happens. */
  lemma FirstRevocationStays(env: Env, trace: seq<System>, steps: seq<Step>, i: nat, j: nat, x: Id)
    requires IsRun(env, trace, steps) && i <= j < |trace|
    ensures x in trace[i].db.refreshTokens && trace[i].db.refreshTokens[x].Revoked? ==>
      x in trace[j].db.refreshTokens && trace[j].db.refreshTokens[x] == trace[i].db.refreshTokens[x]
    ensures x in trace[i].db.accessTokens && trace[i].db.accessTokens[x].Revoked? ==>
      x in trace[j].db.accessTokens && trace[j].db.accessTokens[x] == trace[i].db.accessTokens[x]
    ensures x in trace[i].db.sessions && trace[i].db.sessions[x].Revoked? ==>
      x in trace[j].db.sessions && trace[j].db.sessions[x] == trace[i].db.sessions[x]
  {
    hide Invariant, IsPath;
    InitialIsSound(trace[0]);
    GrownAlong(env, trace, steps, i, j);
  }

  // ---------- What a request holds, it read while it was unspent ----------

  /** The grant a request can still mint from. */
  function HeldGrant(t: Thread): Option<Grant> {
    if !HasGrant(t) || (t.TokenRead? && t.revoked) || (t.CodeRead? && t.grant.OfCode? && t.grant.code.IsUsed()) then None else Some(t.grant)
  }

  ghost predicate Unspent(db: State, grant: Grant) {
    match grant
    case OfToken(_, _, tokenId, token, _, _) => tokenId in db.refreshTokens && db.refreshTokens[tokenId] == Live(token)
    case OfCode(_, _, codeId, code, _) => codeId in db.codes && db.codes[codeId] == code && !code.IsUsed()
  }

  lemma HeldComesFromRead(env: Env, db: State, t: Thread, g: E.Generated, ok: bool)
    requires ForeignKeys(db) && WellTyped(t)
    ensures
      var after := HeldGrant(Advance(env, db, t, g, ok).thread);
      after.Some? ==> HeldGrant(t) == after || (t.ClientKnown? && Unspent(db, after.value))
  {
    hide ForeignKeys, CanCreateAccessToken, CanCreateIdToken, CanCreateRefreshToken;
  }

  /** Step `i` is the one in which request `tid` reads the grant, unspent. */
  ghost predicate ReadsAt(trace: seq<System>, steps: seq<Step>, i: nat, tid: nat, grant: Grant) {
    && i < |steps| < |trace|
    && steps[i].Run? && steps[i].tid == tid
    && tid in trace[i].threads && trace[i].threads[tid].ClientKnown?
    && Unspent(trace[i].db, grant)
    && tid in trace[i + 1].threads && HeldGrant(trace[i + 1].threads[tid]) == Some(grant)
  }

  lemma {:induction false} HeldWasRead(env: Env, trace: seq<System>, steps: seq<Step>, n: nat, tid: nat) returns (i: nat)
    requires IsRun(env, trace, steps) && n < |trace|
    requires tid in trace[n].threads && HeldGrant(trace[n].threads[tid]).Some?
    ensures i < n && ReadsAt(trace, steps, i, tid, HeldGrant(trace[n].threads[tid]).value)
    decreases n
  {
    hide ForeignKeys, Advance, HeldGrant, Unspent, M.Initial;
    var m, e := trace[n - 1], steps[n - 1];
    assert Next(env, m, e, trace[n]);
    if e.Run? && e.tid == tid {
      HeldComesFromRead(env, m.db, m.threads[tid], e.generated, e.ok);
      if HeldGrant(m.threads[tid]) == HeldGrant(trace[n].threads[tid]) {
        i := HeldWasRead(env, trace, steps, n - 1, tid);
      } else {
        i := n - 1;
      }
    } else {
      ArrivalHoldsNothing(m, e, tid, trace[n]);
      i := HeldWasRead(env, trace, steps, n - 1, tid);
    }
  }

  lemma ArrivalHoldsNothing(m: System, e: Step, tid: nat, n: System)
    requires tid in n.threads && HeldGrant(n.threads[tid]).Some?
    requires e.Arrive? ==> n.threads == m.threads[e.tid := Asked(e.request)]
    ensures !(e.Arrive? && e.tid == tid)
  {
  }

  // ---------- Where a refresh token comes from ----------

  /** Step `k` is the one in which request `tid` stores the refresh token, as a child of the token it holds if it holds one. */
  ghost predicate MintsAt(trace: seq<System>, steps: seq<Step>, k: nat, tid: nat, x: Id) {
    && k < |steps| < |trace|
    && steps[k].Run? && steps[k].tid == tid
    && tid in trace[k].threads && HeldGrant(trace[k].threads[tid]).Some?
    && x !in trace[k].db.refreshTokens && x in trace[k + 1].db.refreshTokens
    && trace[k + 1].db.refreshTokens[x].row.parentId == HeldGrant(trace[k].threads[tid]).value.ParentId()
    && steps[k].generated.refreshTokenId == x
    && tid in trace[k + 1].threads && trace[k + 1].threads[tid].Answered?
  }

  lemma OnlyInsertAddsRefresh(db: State, c: Call, x: Id)
    requires (c.MarkUsed? ==> c.usedCode in db.codes) && x !in db.refreshTokens && x in Called(db, c).refreshTokens
    ensures c.InsertRefresh? && c.newRefresh == x && Called(db, c).refreshTokens[x].row == c.refresh
  {
  }

  /** Only a request's last step stores a refresh token. */
  lemma WriteStoresRefresh(db: State, t: Thread, g: E.Generated, call: Option<Call>, c: Config, x: Id)
    requires Writes(db, t, g, call, c) && x !in db.refreshTokens && x in c.db.refreshTokens
    ensures HeldGrant(t).Some? && g.refreshTokenId == x && c.thread.Answered?
    ensures c.db.refreshTokens[x].row.parentId == HeldGrant(t).value.ParentId()
  {
    hide RefreshOk, CanCall, Called;
    assert call.Some? && (call.value.MarkUsed? ==> call.value.usedCode in db.codes) by { MarksExisting(db, call); }
    OnlyInsertAddsRefresh(db, call.value, x);
  }

  lemma MarksExisting(db: State, call: Option<Call>)
    ensures call.Some? && CanCall(db, call.value) && call.value.MarkUsed? ==> call.value.usedCode in db.codes
  {
  }

  lemma StepStoresRefresh(env: Env, m: System, e: Step, x: Id)
    requires Invariant(m) && Enabled(m, e)
    requires x !in m.db.refreshTokens && x in After(env, m, e).db.refreshTokens
    ensures e.Run? && e.tid in m.threads && HeldGrant(m.threads[e.tid]).Some? && e.generated.refreshTokenId == x
    ensures After(env, m, e).db.refreshTokens[x].row.parentId == HeldGrant(m.threads[e.tid]).value.ParentId()
    ensures e.tid in After(env, m, e).threads && After(env, m, e).threads[e.tid].Answered?
  {
    hide ForeignKeys, UniqueIndexes, TokensSound, AccessOriginsOk, IdOriginsOk, Advance, CanCall, Writes, HeldGrant, Called, WellTyped, SignsNew;
    match e
    case Wait(_) =>
    case Arrive(_, _) =>
    case Run(tid, g, ok) =>
      var call := AdvanceWrites(env, m.db, m.threads[tid], g, ok);
      WriteStoresRefresh(m.db, m.threads[tid], g, call, Advance(env, m.db, m.threads[tid], g, ok), x);
    case Other(call) => OnlyInsertAddsRefresh(m.db, call, x);
  }

  lemma {:induction false} EveryRefreshWasMinted(env: Env, trace: seq<System>, steps: seq<Step>, n: nat, x: Id) returns (k: nat, tid: nat)
    requires IsRun(env, trace, steps) && n < |trace| && x in trace[n].db.refreshTokens
    ensures k < n && MintsAt(trace, steps, k, tid, x)
    decreases n
  {
    hide After, Enabled, HeldGrant, Invariant, Integrity;
    if x in trace[n - 1].db.refreshTokens {
      k, tid := EveryRefreshWasMinted(env, trace, steps, n - 1, x);
    } else {
      InitialIsSound(trace[0]);
      InvariantAlways(env, trace, steps, n - 1);
      assert Next(env, trace[n - 1], steps[n - 1], trace[n]);
      StepStoresRefresh(env, trace[n - 1], steps[n - 1], x);
      k, tid := n - 1, steps[n - 1].tid;
    }
  }

  // ---------- One request, one child ----------

  lemma {:induction false} AnsweredForever(env: Env, trace: seq<System>, steps: seq<Step>, i: nat, j: nat, tid: nat)
    requires IsPath(env, trace, steps) && i <= j < |trace| && tid in trace[i].threads && trace[i].threads[tid].Answered?
    ensures tid in trace[j].threads && trace[j].threads[tid].Answered?
    decreases j - i
  {
    hide ForeignKeys;
    if i < j {
      AnsweredForever(env, trace, steps, i, j - 1, tid);
      assert Next(env, trace[j - 1], steps[j - 1], trace[j]);
    }
  }

  /** A request stores at most one refresh token in the whole run. */
  lemma OneMintPerRequest(env: Env, trace: seq<System>, steps: seq<Step>, tid: nat, j: nat, x: Id, k: nat, y: Id)
    requires IsPath(env, trace, steps) && MintsAt(trace, steps, j, tid, x) && MintsAt(trace, steps, k, tid, y)
    ensures x == y && j == k
  {
    hide IsPath;
    if j < k {
      AnsweredForever(env, trace, steps, j + 1, k, tid);
      assert false;
    } else if k < j {
      AnsweredForever(env, trace, steps, k + 1, j, tid);
      assert false;
    }
  }

  /**
   The parent of every refresh token was still unrevoked when the request that minted the token read it: at step
   `i` request `tid` reads `parent` live, and at step `k` the same request stores the child.
   */
  lemma ChildReadParentLive(env: Env, trace: seq<System>, steps: seq<Step>, n: nat, x: Id) returns (i: nat, k: nat, tid: nat, parent: Grant)
    requires IsRun(env, trace, steps) && n < |trace|
    requires x in trace[n].db.refreshTokens && trace[n].db.refreshTokens[x].row.parentId.Some?
    ensures i < k < n && ReadsAt(trace, steps, i, tid, parent) && MintsAt(trace, steps, k, tid, x)
    ensures parent.OfToken? && trace[n].db.refreshTokens[x].row.parentId == Some(parent.tokenId)
    ensures parent.tokenId in trace[i].db.refreshTokens && trace[i].db.refreshTokens[parent.tokenId].Live?
  {
    hide IsPath, HeldGrant, Grown, Invariant;
    k, tid := EveryRefreshWasMinted(env, trace, steps, n, x);
    i := HeldWasRead(env, trace, steps, k, tid);
    parent := HeldGrant(trace[k].threads[tid]).value;
    InitialIsSound(trace[0]);
    GrownAlong(env, trace, steps, k + 1, n);
    RowsStay(trace[k + 1].db, trace[n].db, x);
  }

  lemma RowsStay(a: State, b: State, x: Id)
    requires Grown(a, b) && x in a.refreshTokens
    ensures x in b.refreshTokens && b.refreshTokens[x].row == a.refreshTokens[x].row
  {
  }

  // ---------- How many children a token can get ----------

  function Children(db: State, p: Id): set<Id> {
    set x | x in db.refreshTokens && db.refreshTokens[x].row.parentId == Some(p)
  }

  /** The requests that had read the token while it was live. */
  ghost function TimelyReaders(trace: seq<System>, steps: seq<Step>, n: nat, p: Id): set<nat>
    requires n < |trace|
  {
    set tid | tid in trace[n].threads && ReadInTime(trace, steps, n, tid, p)
  }

  ghost predicate ReadInTime(trace: seq<System>, steps: seq<Step>, n: nat, tid: nat, p: Id) {
    exists i: nat, grant {:trigger ReadsAt(trace, steps, i, tid, grant)} ::
      i < n && ReadsAt(trace, steps, i, tid, grant) && grant.OfToken? && grant.tokenId == p
  }

  /**
   In every interleaving a refresh token has at most as many children as requests read it before its first
   revocation; with one such request, as in serial runs, it has at most one.
   */
  lemma ChildrenBounded(env: Env, trace: seq<System>, steps: seq<Step>, n: nat, p: Id)
    requires IsRun(env, trace, steps) && n < |trace|
    ensures |Children(trace[n].db, p)| <= |TimelyReaders(trace, steps, n, p)|
  {
    ghost var minters := MintersOf(env, trace, steps, n, p, Children(trace[n].db, p));
    InjectionBounds(minters, TimelyReaders(trace, steps, n, p));
  }

  /** Each child with the request that stored it. */
  lemma {:induction false} MintersOf(env: Env, trace: seq<System>, steps: seq<Step>, n: nat, p: Id, children: set<Id>)
    returns (minters: map<Id, nat>)
    requires IsRun(env, trace, steps) && n < |trace| && children <= Children(trace[n].db, p)
    ensures minters.Keys == children
    ensures forall x | x in minters :: minters[x] in TimelyReaders(trace, steps, n, p)
    ensures forall x, y | x in minters && y in minters && minters[x] == minters[y] :: x == y
    ensures forall x | x in minters :: exists k :: MintsAt(trace, steps, k, minters[x], x)
    decreases |children|
  {
    hide IsRun, ReadsAt, MintsAt;
    minters := map[];
    if children != {} {
      var x :| x in children;
      var rest := MintersOf(env, trace, steps, n, p, children - {x});
      var i, k, tid, parent := ChildReadParentLive(env, trace, steps, n, x);
      MinterStays(env, trace, steps, k, n, tid, x);
      forall y | y in rest
        ensures rest[y] != tid
      {
        if rest[y] == tid {
          var j :| MintsAt(trace, steps, j, rest[y], y);
          RunIsPath(env, trace, steps);
          OneMintPerRequest(env, trace, steps, tid, k, x, j, y);
          assert false;
        }
      }
      minters := rest[x := tid];
    }
  }

  lemma RunIsPath(env: Env, trace: seq<System>, steps: seq<Step>)
    requires IsRun(env, trace, steps)
    ensures IsPath(env, trace, steps)
  {
  }

  lemma MinterStays(env: Env, trace: seq<System>, steps: seq<Step>, k: nat, n: nat, tid: nat, x: Id)
    requires IsRun(env, trace, steps) && k < n < |trace| && MintsAt(trace, steps, k, tid, x)
    ensures tid in trace[n].threads
  {
    AnsweredForever(env, trace, steps, k + 1, n, tid);
  }

  lemma {:induction false} InjectionBounds(f: map<Id, nat>, b: set<nat>)
    requires forall x | x in f :: f[x] in b
    requires forall x, y | x in f && y in f && f[x] == f[y] :: x == y
    ensures |f.Keys| <= |b|
    decreases |f.Keys|
  {
    if f.Keys != {} {
      var x :| x in f.Keys;
      var rest := f - {x};
      InjectionBounds(rest, b - {f[x]});
      assert rest.Keys == f.Keys - {x};
    }
  }
}
