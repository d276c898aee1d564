/**
 How often one authorization code can be exchanged under interleaving: every access token and every ID-token row
 minted from a code belongs to its own request, one that read the code while it was unused.
 */
module MicroExchanges {
  import opened Basics
  import opened Schema
  import opened Repository
  import opened Micro
  import opened MicroInvariants
  import opened MicroRuns
  import opened MicroAlone
  import E = Endpoints

  /** The two kinds of row an exchange stores exactly once. */
  datatype Kind = AccessRows | IdRows

  function Rows(db: State, kind: Kind): set<Id> {
    if kind.AccessRows? then db.accessTokens.Keys else db.idTokens.Keys
  }

  function Origins(m: System, kind: Kind): map<Id, Grant> {
    if kind.AccessRows? then m.accessOrigins else m.idOrigins
  }

  /** The row a request stores next if it is in the stage that stores this kind. */
  predicate AboutToStore(t: Thread, kind: Kind) {
    if kind.AccessRows? then t.AccessSigned? else t.IdSigned?
  }

  function GeneratedId(g: E.Generated, kind: Kind): Id {
    if kind.AccessRows? then g.accessTokenId else g.idTokenId
  }

  // ---------- The step that stores a row ----------

  lemma OnlyInsertAddsRow(db: State, c: Call, kind: Kind, x: Id)
    requires (c.MarkUsed? ==> c.usedCode in db.codes) && x !in Rows(db, kind) && x in Rows(Called(db, c), kind)
    ensures if kind.AccessRows? then c.InsertAccess? && c.newAccess == x else c.InsertId? && c.newIdToken == x
  {
  }

  lemma WriteStoresRow(db: State, t: Thread, g: E.Generated, call: Option<Call>, c: Config, kind: Kind, x: Id)
    requires Writes(db, t, g, call, c)
    ensures x !in Rows(db, kind) && x in Rows(c.db, kind) ==>
      && AboutToStore(t, kind)
      && (if kind.AccessRows? then c.thread.AccessStored? && c.thread.accessTokenId == x else c.thread.IdStored? && g.idTokenId == x)
    ensures kind.AccessRows? && t.AccessSigned? && c.thread.AccessStored? ==> c.thread.accessTokenId !in db.accessTokens
    ensures kind.IdRows? && t.IdSigned? && c.thread.IdStored? ==> g.idTokenId !in db.idTokens
  {
    hide RefreshOk, Called;
    if x !in Rows(db, kind) && x in Rows(c.db, kind) {
      MarksExisting(db, call);
      OnlyInsertAddsRow(db, call.value, kind, x);
    }
  }

  lemma AccessIdIsGenerated(env: Env, db: State, t: Thread, g: E.Generated, ok: bool)
    requires ForeignKeys(db) && WellTyped(t) && t.AccessSigned?
    ensures
      var after := Advance(env, db, t, g, ok).thread;
      after.AccessStored? ==> after.accessTokenId == g.accessTokenId
  {
    hide ForeignKeys, CanCreateAccessToken;
  }

  /** A step keeps the origin of every row; a row appears only in the step that stores it, which takes its request past that stage. */
  lemma StepStoresRow(env: Env, m: System, e: Step, kind: Kind, x: Id)
    requires Invariant(m) && Enabled(m, e) && x in Rows(After(env, m, e).db, kind)
    ensures x in Origins(After(env, m, e), kind)
    ensures x in Rows(m.db, kind) ==>
      x in Origins(m, kind) && Origins(After(env, m, e), kind)[x] == Origins(m, kind)[x]
    ensures x !in Rows(m.db, kind) ==>
      && e.Run? && e.tid in m.threads && AboutToStore(m.threads[e.tid], kind)
      && HeldGrant(m.threads[e.tid]) == Some(Origins(After(env, m, e), kind)[x])
      && GeneratedId(e.generated, kind) == x
  {
    hide ForeignKeys, UniqueIndexes, TokensSound, Advance, CanCall, Writes, Called, WellTyped, SignsNew, StillThere, IsSpent;
    match e
    case Wait(_) =>
    case Arrive(_, _) =>
    case Run(tid, g, ok) =>
      var t := m.threads[tid];
      var call := AdvanceWrites(env, m.db, t, g, ok);
      WriteStoresRow(m.db, t, g, call, Advance(env, m.db, t, g, ok), kind, x);
      if t.AccessSigned? { AccessIdIsGenerated(env, m.db, t, g, ok); }
    case Other(call) =>
      if x !in Rows(m.db, kind) { OnlyInsertAddsRow(m.db, call, kind, x); }
  }

  /** Step `k` is the one in which request `tid` stores row `x`. */
  ghost predicate StoresAt(trace: seq<System>, steps: seq<Step>, kind: Kind, k: nat, tid: nat, x: Id) {
    && k < |steps| < |trace|
    && steps[k].Run? && steps[k].tid == tid && GeneratedId(steps[k].generated, kind) == x
    && tid in trace[k].threads && AboutToStore(trace[k].threads[tid], kind)
  }

  /**
   Every access token and every ID token was minted from a code that was unused, or a refresh token that was unrevoked,
   when the request that minted it read it: at step `i` request `tid` reads the grant, and at step `k` it stores the row.
   */
  lemma {:induction false} RowReadUnspent(env: Env, trace: seq<System>, steps: seq<Step>, n: nat, kind: Kind, x: Id)
    returns (i: nat, k: nat, tid: nat)
    requires IsRun(env, trace, steps) && n < |trace| && x in Rows(trace[n].db, kind)
    ensures x in Origins(trace[n], kind) && i < k < n && ReadsAt(trace, steps, i, tid, Origins(trace[n], kind)[x])
    ensures StoresAt(trace, steps, kind, k, tid, x)
    ensures x !in Rows(trace[k].db, kind) && x in Rows(trace[k + 1].db, kind)
    decreases n
  {
    hide After, Enabled, HeldGrant, Invariant, Integrity, ReadsAt;
    InitialIsSound(trace[0]);
    InvariantAlways(env, trace, steps, n - 1);
    assert Next(env, trace[n - 1], steps[n - 1], trace[n]);
    StepStoresRow(env, trace[n - 1], steps[n - 1], kind, x);
    if x in Rows(trace[n - 1].db, kind) {
      i, k, tid := RowReadUnspent(env, trace, steps, n - 1, kind, x);
    } else {
      k, tid := n - 1, steps[n - 1].tid;
      i := HeldWasRead(env, trace, steps, k, tid);
    }
  }

  // ---------- A request passes each stage once ----------

  /** A request that has a step to go never has that many again. */
  lemma {:induction false} CallsFall(env: Env, trace: seq<System>, steps: seq<Step>, i: nat, j: nat, tid: nat)
    requires IsPath(env, trace, steps) && i < j < |trace|
    requires steps[i].Run? && steps[i].tid == tid && tid in trace[i].threads && !trace[i].threads[tid].Answered?
    ensures tid in trace[j].threads && CallsLeft(trace[j].threads[tid]) < CallsLeft(trace[i].threads[tid])
    decreases j
  {
    hide ForeignKeys, Advance, CallsLeft;
    assert Next(env, trace[j - 1], steps[j - 1], trace[j]);
    if i < j - 1 {
      CallsFall(env, trace, steps, i, j - 1, tid);
    }
    if steps[j - 1].Run? && steps[j - 1].tid == tid {
      var t := trace[j - 1].threads[tid];
      if t.Answered? {
        AnsweredStays(env, trace[j - 1].db, t, steps[j - 1].generated, steps[j - 1].ok);
      } else {
        AdvanceProgresses(env, trace[j - 1].db, t, steps[j - 1].generated, steps[j - 1].ok);
      }
    }
  }

  lemma AnsweredStays(env: Env, db: State, t: Thread, g: E.Generated, ok: bool)
    requires ForeignKeys(db) && WellTyped(t) && t.Answered?
    ensures Advance(env, db, t, g, ok).thread == t
  {
    hide ForeignKeys;
  }

  /** A request stores at most one row of each kind in the whole run. */
  lemma OneRowPerRequest(env: Env, trace: seq<System>, steps: seq<Step>, kind: Kind, tid: nat, j: nat, x: Id, k: nat, y: Id)
    requires IsPath(env, trace, steps) && StoresAt(trace, steps, kind, j, tid, x) && StoresAt(trace, steps, kind, k, tid, y)
    ensures x == y && j == k
  {
    hide IsPath;
    if j < k {
      CallsFall(env, trace, steps, j, k, tid);
      assert false;
    } else if k < j {
      CallsFall(env, trace, steps, k, j, tid);
      assert false;
    }
  }

  // ---------- The bound ----------

  /** The rows minted from a code. */
  function MintedFrom(m: System, kind: Kind, code: Id): set<Id> {
    set x | x in Rows(m.db, kind) && x in Origins(m, kind) && Origins(m, kind)[x].OfCode? && Origins(m, kind)[x].codeId == code
  }

  /** The requests that had read the code while it was unused. */
  ghost function TimelyExchanges(trace: seq<System>, steps: seq<Step>, n: nat, code: Id): set<nat>
    requires n < |trace|
  {
    set tid | tid in trace[n].threads && ReadCodeInTime(trace, steps, n, tid, code)
  }

  ghost predicate ReadCodeInTime(trace: seq<System>, steps: seq<Step>, n: nat, tid: nat, code: Id) {
    exists i: nat, grant {:trigger ReadsAt(trace, steps, i, tid, grant)} ::
      i < n && ReadsAt(trace, steps, i, tid, grant) && grant.OfCode? && grant.codeId == code
  }

  /**
   In every interleaving a code gives at most as many access tokens, and at most as many ID tokens, as requests read it
   before it was marked used; with one such request, as in serial runs, at most one of each.
   */
  lemma ExchangesBounded(env: Env, trace: seq<System>, steps: seq<Step>, n: nat, kind: Kind, code: Id)
    requires IsRun(env, trace, steps) && n < |trace|
    ensures |MintedFrom(trace[n], kind, code)| <= |TimelyExchanges(trace, steps, n, code)|
  {
    ghost var minters := ExchangersOf(env, trace, steps, n, kind, code, MintedFrom(trace[n], kind, code));
    InjectionBounds(minters, TimelyExchanges(trace, steps, n, code));
  }

  /** Each row with the request that stored it. */
  lemma {:induction false} ExchangersOf(env: Env, trace: seq<System>, steps: seq<Step>, n: nat, kind: Kind, code: Id, rows: set<Id>)
    returns (minters: map<Id, nat>)
    requires IsRun(env, trace, steps) && n < |trace| && rows <= MintedFrom(trace[n], kind, code)
    ensures minters.Keys == rows
    ensures forall x | x in minters :: minters[x] in TimelyExchanges(trace, steps, n, code)
    ensures forall x, y | x in minters && y in minters && minters[x] == minters[y] :: x == y
    ensures forall x | x in minters :: exists k :: StoresAt(trace, steps, kind, k, minters[x], x)
    decreases |rows|
  {
    hide IsRun, ReadsAt, StoresAt;
    minters := map[];
    if rows != {} {
      var x :| x in rows;
      var rest := ExchangersOf(env, trace, steps, n, kind, code, rows - {x});
      var i, k, tid := RowReadUnspent(env, trace, steps, n, kind, x);
      StorerStays(env, trace, steps, kind, k, n, tid, x);
      forall y | y in rest
        ensures rest[y] != tid
      {
        if rest[y] == tid {
          var j :| StoresAt(trace, steps, kind, j, rest[y], y);
          RunIsPath(env, trace, steps);
          OneRowPerRequest(env, trace, steps, kind, tid, k, x, j, y);
          assert false;
        }
      }
      minters := rest[x := tid];
    }
  }

  lemma StorerStays(env: Env, trace: seq<System>, steps: seq<Step>, kind: Kind, k: nat, n: nat, tid: nat, x: Id)
    requires IsRun(env, trace, steps) && k < n < |trace| && StoresAt(trace, steps, kind, k, tid, x)
    ensures tid in trace[n].threads
  {
    hide ForeignKeys;
    CallsFall(env, trace, steps, k, n, tid);
  }
}
