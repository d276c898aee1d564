/**
 What interleaving costs. Every one-step token request is a path of the interleaved system; but two requests that
 read the same live token, or the same unused code, before either has spent it both succeed. One child per refresh
 token and one exchange per code hold when requests are served one at a time, and only then.
 */
module MicroRaces {
  import opened Basics
  import opened Schema
  import opened Repository
  import opened Micro
  import opened MicroInvariants
  import opened MicroAlone
  import opened MicroRuns
  import X = Effects
  import E = Endpoints

  /** Some path leads from one state of the system to the other. */
  ghost predicate Reaches(env: Env, m: System, n: System) {
    exists trace, steps :: IsPath(env, trace, steps) && trace[0] == m && trace[|steps|] == n
  }

  lemma ReachesItself(env: Env, m: System)
    ensures Reaches(env, m, m)
  {
    assert IsPath(env, [m], []) && [m][0] == m;
  }

  lemma ReachesOneMore(env: Env, m: System, n: System, e: Step, o: System)
    requires Reaches(env, m, n) && Next(env, n, e, o)
    ensures Reaches(env, m, o)
  {
    hide Next;
    var trace, steps :| IsPath(env, trace, steps) && trace[0] == m && trace[|steps|] == n;
    var trace', steps' := trace + [o], steps + [e];
    assert IsPath(env, trace', steps') && trace'[0] == m && trace'[|steps'|] == o;
  }

  // ---------- Requests alone are paths ----------

  predicate BeforeAccessSigned(t: Thread) { !t.AccessSigned? && !t.AccessStored? && !t.IdSigned? && !t.IdStored? }

  predicate BeforeIdSigned(t: Thread) { BeforeAccessSigned(t) || t.AccessSigned? || t.AccessStored? }

  /** The strings the request still has to sign have not been signed. */
  predicate TextsNew(db: State, t: Thread, g: E.Generated) {
    && g.accessText != g.idText
    && (BeforeAccessSigned(t) ==> g.accessText !in db.signed)
    && (BeforeIdSigned(t) ==> g.idText !in db.signed)
  }

  lemma TextsStayNew(env: Env, db: State, t: Thread, g: E.Generated)
    requires ForeignKeys(db) && ThreadSound(db, t) && TextsNew(db, t, g) && !t.Answered?
    ensures
      var c := Advance(env, db, t, g, true);
      c.thread.Answered? || TextsNew(c.db, c.thread, g)
  {
    hide ForeignKeys, StillThere, IsSpent, Advance;
    if t.TenantKnown? || (t.AccessStored? && t.grant.OfCode?) {
      SigningSigns(env, db, t, g);
    } else {
      OthersSignNothing(env, db, t, g);
    }
  }

  lemma SigningSigns(env: Env, db: State, t: Thread, g: E.Generated)
    requires ForeignKeys(db) && WellTyped(t) && (t.TenantKnown? || (t.AccessStored? && t.grant.OfCode?))
    ensures
      var c := Advance(env, db, t, g, true);
      || c.thread.Answered?
      || (t.TenantKnown? && c.thread.AccessSigned? && c.db.signed.Keys == db.signed.Keys + {g.accessText})
      || (t.AccessStored? && c.thread.IdSigned?)
  {
    hide ForeignKeys;
  }

  lemma OthersSignNothing(env: Env, db: State, t: Thread, g: E.Generated)
    requires ForeignKeys(db) && ThreadSound(db, t) && !t.TenantKnown? && !(t.AccessStored? && t.grant.OfCode?)
    ensures Advance(env, db, t, g, true).db.signed == db.signed
    ensures
      var after := Advance(env, db, t, g, true).thread;
      && (BeforeAccessSigned(after) && !after.Answered? ==> BeforeAccessSigned(t))
      && (BeforeIdSigned(after) && !after.Answered? ==> BeforeIdSigned(t))
  {
    assert WellTyped(t);
    hide ForeignKeys, Advance, ThreadSound, Writes;
    PhasesPass(env, db, t, g);
    var call := AdvanceWrites(env, db, t, g, true);
    OnlySigningSigns(db, t, g, call, Advance(env, db, t, g, true));
  }

  lemma OnlySigningSigns(db: State, t: Thread, g: E.Generated, call: Option<Call>, c: Config)
    requires Writes(db, t, g, call, c) && !t.TenantKnown? && !(t.AccessStored? && t.grant.OfCode?)
    ensures c.db.signed == db.signed
  {
    hide RefreshOk, CanCall, Called;
    MarksExisting(db, call);
    if call.Some? { OnlySignTextSigns(db, call.value); }
  }

  lemma OnlySignTextSigns(db: State, c: Call)
    requires (c.MarkUsed? ==> c.usedCode in db.codes) && !c.SignText?
    ensures Called(db, c).signed == db.signed
  {
  }

  lemma PhasesPass(env: Env, db: State, t: Thread, g: E.Generated)
    requires ForeignKeys(db) && WellTyped(t)
    ensures
      var after := Advance(env, db, t, g, true).thread;
      && (BeforeAccessSigned(after) && !after.Answered? ==> BeforeAccessSigned(t))
      && (BeforeIdSigned(after) && !after.Answered? ==> BeforeIdSigned(t))
  {
    hide ForeignKeys, CanCreateAccessToken, CanCreateIdToken, CanCreateRefreshToken;
  }

  /** The request runs to its answer while nothing else happens. */
  lemma {:induction false} CompleteIsReached(env: Env, start: System, m: System, tid: nat, g: E.Generated) returns (n: System)
    requires Reaches(env, start, m) && Invariant(m) && tid in m.threads
    requires m.threads[tid].Answered? || TextsNew(m.db, m.threads[tid], g)
    ensures ThreadSound(m.db, m.threads[tid])
    ensures
      var c := Complete(env, m.db, m.threads[tid], g);
      Reaches(env, start, n) && Invariant(n) && n.db == c.db && n.threads == m.threads[tid := c.thread]
    decreases CallsLeft(m.threads[tid])
  {
    hide Advance, Reaches, TextsNew, ForeignKeys, UniqueIndexes, TokensSound, AccessOriginsOk, IdOriginsOk;
    var t := m.threads[tid];
    if t.Answered? {
      n := m;
      assert n.threads == m.threads[tid := t];
    } else {
      var o := Ran(env, m, tid, g, true);
      TextsAreSignable(m.db, t, g);
      AdvanceProgresses(env, m.db, t, g, true);
      TextsStayNew(env, m.db, t, g);
      StepKeepsInvariant(env, m, Run(tid, g, true));
      ReachesOneMore(env, start, m, Run(tid, g, true), o);
      n := CompleteIsReached(env, start, o, tid, g);
    }
  }

  lemma TextsAreSignable(db: State, t: Thread, g: E.Generated)
    requires TextsNew(db, t, g)
    ensures SignsNew(db, t, g)
  {
  }

  lemma Arrives(env: Env, start: System, m: System, tid: nat, request: Request) returns (n: System)
    requires Reaches(env, start, m) && Invariant(m) && tid !in m.threads
    ensures Reaches(env, start, n) && Invariant(n) && n.db == m.db && n.threads == m.threads[tid := Asked(request)]
  {
    hide Invariant, Reaches;
    n := After(env, m, Arrive(tid, request)) by { InvariantKeepsForeignKeys(m); }
    InvariantKeepsForeignKeys(m);
    StepKeepsInvariant(env, m, Arrive(tid, request));
    ReachesOneMore(env, start, m, Arrive(tid, request), n);
  }

  lemma InvariantKeepsForeignKeys(m: System)
    requires Invariant(m)
    ensures ForeignKeys(m.db) && Integrity(m.db)
  {
    hide ForeignKeys;
  }

  /** The interleaved system can do whatever the one-step refresh does. */
  lemma RefreshIsReached(env: Env, m: System, tid: nat, r: E.RefreshRequest, g: E.Generated) returns (n: System)
    requires Invariant(m) && tid !in m.threads && E.IsFresh(env, m.db, g)
    ensures Reaches(env, m, n)
    ensures
      var o := E.GrantRefresh(env, m.db, r, g);
      n.db == o.state && n.threads == m.threads[tid := Answered(o.reply)]
  {
    hide Invariant, Reaches, E.IsFresh, Complete, ThreadSound;
    InvariantKeepsForeignKeys(m);
    ReachesItself(env, m);
    n := Arrives(env, m, m, tid, AskRefresh(r));
    FreshTextsAreNew(env, m.db, n.threads[tid], g);
    RefreshAlone(env, m.db, r, g);
    n := CompleteIsReached(env, m, n, tid, g);
  }

  /** The interleaved system can do whatever the one-step exchange does. */
  lemma ExchangeIsReached(env: Env, m: System, tid: nat, r: E.CodeRequest, g: E.Generated) returns (n: System)
    requires Invariant(m) && tid !in m.threads && E.IsFresh(env, m.db, g)
    ensures Reaches(env, m, n)
    ensures
      var o := E.GrantCode(env, m.db, r, g);
      n.db == o.state && n.threads == m.threads[tid := Answered(o.reply)]
  {
    hide Invariant, Reaches, E.IsFresh, Complete, ThreadSound;
    InvariantKeepsForeignKeys(m);
    ReachesItself(env, m);
    n := Arrives(env, m, m, tid, AskExchange(r));
    FreshTextsAreNew(env, m.db, n.threads[tid], g);
    ExchangeAlone(env, m.db, r, g);
    n := CompleteIsReached(env, m, n, tid, g);
  }

  lemma FreshTextsAreNew(env: Env, db: State, t: Thread, g: E.Generated)
    requires E.IsFresh(env, db, g)
    ensures TextsNew(db, t, g)
  {
  }

  // ---------- Two requests that both read in time ----------

  /** The request is admitted and has not yet spent anything. */
  lemma ReadAndApprove(env: Env, start: System, m: System, tid: nat, request: Request, g: E.Generated) returns (n: System)
    requires Reaches(env, start, m) && Invariant(m) && tid !in m.threads
    requires SignsNew(m.db, Asked(request), g)
    requires match request
      case AskRefresh(r) => ForeignKeys(m.db) && E.JudgeRefresh(env, m.db, r).Rotates?
      case AskExchange(r) => E.JudgeCode(env, m.db, r).CodeAccepted?
    ensures Reaches(env, start, n) && Invariant(n) && n.db == m.db && tid in n.threads && n.threads == m.threads[tid := n.threads[tid]]
    ensures n.threads[tid].Approved? && ThreadSound(n.db, n.threads[tid]) && Current(n.db, n.threads[tid].grant)
    ensures var grant := n.threads[tid].grant;
      match request
      case AskRefresh(r) =>
        && grant.OfToken? && E.JudgeRefresh(env, m.db, r) == E.Rotates(grant.tokenId, grant.clientId)
      case AskExchange(r) =>
        && grant.OfCode? && E.JudgeCode(env, m.db, r) == E.CodeAccepted(grant.codeId, grant.clientId)
        && grant.codeId in m.db.codes && m.db.codes[grant.codeId] == grant.code
  {
    hide Invariant, Reaches, Advance, ForeignKeys, After;
    InvariantKeepsForeignKeys(m);
    var a := Arrives(env, start, m, tid, request);
    var c1, c2, c3 := ApproveConfigs(env, m.db, request, g);
    var b := TakesStep(env, start, a, tid, g, c1);
    var c := TakesStep(env, start, b, tid, g, c2);
    n := TakesStep(env, start, c, tid, g, c3);
  }

  lemma TakesStep(env: Env, start: System, m: System, tid: nat, g: E.Generated, c: Config) returns (n: System)
    requires Reaches(env, start, m) && Invariant(m) && tid in m.threads && WellTyped(m.threads[tid]) && SignsNew(m.db, m.threads[tid], g)
    requires ForeignKeys(m.db) && c == Advance(env, m.db, m.threads[tid], g, true)
    ensures Reaches(env, start, n) && Invariant(n) && n.db == c.db && n.threads == m.threads[tid := c.thread]
  {
    hide Invariant, Reaches, Advance, ForeignKeys;
    n := Ran(env, m, tid, g, true);
    StepKeepsInvariant(env, m, Run(tid, g, true));
    ReachesOneMore(env, start, m, Run(tid, g, true), n);
  }

  lemma ApproveConfigs(env: Env, db: State, request: Request, g: E.Generated) returns (c1: Config, c2: Config, c3: Config)
    requires Integrity(db)
    requires match request
      case AskRefresh(r) => E.JudgeRefresh(env, db, r).Rotates?
      case AskExchange(r) => E.JudgeCode(env, db, r).CodeAccepted?
    ensures c1 == Advance(env, db, Asked(request), g, true) && c1.db == db && c1.thread.ClientKnown?
    ensures c2 == Advance(env, db, c1.thread, g, true) && c2.db == db && (c2.thread.TokenRead? || c2.thread.CodeRead?)
    ensures c3 == Advance(env, db, c2.thread, g, true) && c3.db == db && c3.thread.Approved?
    ensures ThreadSound(db, c3.thread) && Current(db, c3.thread.grant)
    ensures var grant := c3.thread.grant;
      match request
      case AskRefresh(r) => grant.OfToken? && E.JudgeRefresh(env, db, r) == E.Rotates(grant.tokenId, grant.clientId)
      case AskExchange(r) =>
        && grant.OfCode? && E.JudgeCode(env, db, r) == E.CodeAccepted(grant.codeId, grant.clientId)
        && grant.codeId in db.codes && db.codes[grant.codeId] == grant.code
  {
    hide UniqueIndexes;
    c1 := Advance(env, db, Asked(request), g, true);
    c2 := Advance(env, db, c1.thread, g, true);
    c3 := Advance(env, db, c2.thread, g, true);
  }

  /** Two bundles of generated values have nothing in common. */
  predicate Apart(env: Env, g: E.Generated, h: E.Generated) {
    && g.accessTokenId != h.accessTokenId && g.accessJti != h.accessJti
    && g.idTokenId != h.idTokenId && g.refreshTokenId != h.refreshTokenId
    && env.sha256Hex(g.refreshText) != env.sha256Hex(h.refreshText)
    && {g.accessText, g.idText} !! {h.accessText, h.idText}
  }

  /** Values that were new stay new when another request mints from values apart from them. */
  lemma StillFresh(env: Env, s: State, t: State, g: E.Generated, h: E.Generated)
    requires E.IsFresh(env, s, h) && Apart(env, g, h)
    requires t.accessTokens.Keys <= s.accessTokens.Keys + {g.accessTokenId}
    requires t.refreshTokens.Keys <= s.refreshTokens.Keys + {g.refreshTokenId}
    requires t.idTokens.Keys <= s.idTokens.Keys + {g.idTokenId}
    requires t.signed.Keys <= s.signed.Keys + {g.accessText, g.idText}
    requires forall x | x in t.accessTokens ::
               if x == g.accessTokenId then t.accessTokens[x].row.jti == g.accessJti else t.accessTokens[x].row == s.accessTokens[x].row
    requires forall x | x in t.refreshTokens ::
               if x == g.refreshTokenId then t.refreshTokens[x].row.tokenHash == env.sha256Hex(g.refreshText)
               else t.refreshTokens[x].row == s.refreshTokens[x].row
    ensures E.IsFresh(env, t, h)
  {
  }

  lemma StillFreshAfterRotation(env: Env, s: State, id: Id, clientId: Id, scope: string, g: E.Generated, h: E.Generated)
    requires ForeignKeys(s) && id in s.refreshTokens && clientId in s.clients && FindActive(s.keys).Some?
    requires E.IsFresh(env, s, h) && Apart(env, g, h)
    ensures E.IsFresh(env, E.Rotate(env, s, id, clientId, scope, g).state, h)
  {
    hide ForeignKeys, E.IsFresh, Apart, E.Rotate;
    X.RotatedTables(env, s, id, clientId, scope, g);
    RotationSigns(env, s, id, clientId, scope, g);
    StillFresh(env, s, E.Rotate(env, s, id, clientId, scope, g).state, g, h);
  }

  lemma RotationSigns(env: Env, s: State, id: Id, clientId: Id, scope: string, g: E.Generated)
    requires ForeignKeys(s) && id in s.refreshTokens && clientId in s.clients && FindActive(s.keys).Some?
    ensures
      var o := E.Rotate(env, s, id, clientId, scope, g);
      o.state.signed.Keys == s.signed.Keys + {g.accessText} && o.reply.Tokens?
  {
    hide ForeignKeys;
  }

  /**
   Whenever two refresh requests would each succeed with the same token, whatever their clients and scopes, and both
   read it before either revokes it, both succeed, and the token has two live children.
   */
  lemma Twins(env: Env, m: System, q: E.RefreshRequest, r: E.RefreshRequest, a: nat, g: E.Generated, b: nat, h: E.Generated)
    returns (n: System)
    requires Invariant(m) && a != b && a !in m.threads && b !in m.threads
    requires E.IsFresh(env, m.db, g) && E.IsFresh(env, m.db, h) && Apart(env, g, h)
    requires ForeignKeys(m.db) && FindActive(m.db.keys).Some?
    requires E.JudgeRefresh(env, m.db, q).Rotates? && E.JudgeRefresh(env, m.db, r).Rotates?
    requires E.JudgeRefresh(env, m.db, q).tokenId == E.JudgeRefresh(env, m.db, r).tokenId
    ensures Reaches(env, m, n) && a in n.threads && b in n.threads
    ensures n.threads[a].Answered? && n.threads[a].reply.Tokens? && n.threads[b].Answered? && n.threads[b].reply.Tokens?
    ensures
      var p := E.JudgeRefresh(env, m.db, q).tokenId;
      && {g.refreshTokenId, h.refreshTokenId} <= Children(n.db, p)
      && n.db.refreshTokens[g.refreshTokenId].Live? && n.db.refreshTokens[h.refreshTokenId].Live?
  {
    hide Invariant, Reaches, E.IsFresh, ThreadSound, ForeignKeys, SignsNew, Apart, E.Rotate, Children;
    ReachesItself(env, m);
    AskedSignsNothing(m.db, AskRefresh(q), g);
    AskedSignsNothing(m.db, AskRefresh(r), g);
    var m1 := ReadAndApprove(env, m, m, a, AskRefresh(q), g);
    var m2 := ReadAndApprove(env, m, m1, b, AskRefresh(r), g);
    InvariantKeepsForeignKeys(m2);
    n := BothRotate(env, m, m2, a, g, b, h);
  }

  /** Any two refreshes admitted for one token, whenever each read it, can both run to their answers. */
  lemma BothRotate(env: Env, start: System, m: System, a: nat, g: E.Generated, b: nat, h: E.Generated) returns (n: System)
    requires Reaches(env, start, m) && Invariant(m) && ForeignKeys(m.db) && FindActive(m.db.keys).Some?
    requires a != b && a in m.threads && b in m.threads && m.threads[a].Approved? && m.threads[b].Approved?
    requires E.IsFresh(env, m.db, g) && E.IsFresh(env, m.db, h) && Apart(env, g, h)
    requires m.threads[a].grant.OfToken? && m.threads[b].grant.OfToken?
    requires m.threads[a].grant.tokenId == m.threads[b].grant.tokenId && m.threads[a].grant.tokenId in m.db.refreshTokens
    requires Current(m.db, m.threads[a].grant) && Current(m.db, m.threads[b].grant)
    ensures Reaches(env, start, n) && a in n.threads && b in n.threads
    ensures n.threads[a].Answered? && n.threads[a].reply.Tokens? && n.threads[b].Answered? && n.threads[b].reply.Tokens?
    ensures
      && {g.refreshTokenId, h.refreshTokenId} <= Children(n.db, m.threads[a].grant.tokenId)
      && n.db.refreshTokens[g.refreshTokenId].Live? && n.db.refreshTokens[h.refreshTokenId].Live?
  {
    hide Invariant, Reaches, E.IsFresh, ForeignKeys, E.Rotate, Apart;
    var first, second := m.threads[a].grant, m.threads[b].grant;
    var s := RotationIsReached(env, start, m, a, g);
    StillFreshAfterRotation(env, m.db, first.tokenId, first.clientId, first.scope, g, h);
    X.RotatedTables(env, m.db, first.tokenId, first.clientId, first.scope, g);
    InvariantKeepsForeignKeys(s);
    n := RotationIsReached(env, start, s, b, h);
    X.RotatedTables(env, s.db, second.tokenId, second.clientId, second.scope, h);
    ApartIds(env, g, h);
    FreshRefreshToken(env, m.db, g);
    FreshRefreshToken(env, m.db, h);
  }

  lemma ApartIds(env: Env, g: E.Generated, h: E.Generated)
    requires Apart(env, g, h)
    ensures g.refreshTokenId != h.refreshTokenId && g.accessTokenId != h.accessTokenId
  {
  }

  lemma AskedSignsNothing(db: State, request: Request, g: E.Generated)
    ensures SignsNew(db, Asked(request), g)
  {
  }

  /** An approved refresh runs to its answer. */
  lemma RotationIsReached(env: Env, start: System, m: System, tid: nat, g: E.Generated) returns (n: System)
    requires Reaches(env, start, m) && Invariant(m) && tid in m.threads && m.threads[tid].Approved?
    requires ForeignKeys(m.db) && E.IsFresh(env, m.db, g) && FindActive(m.db.keys).Some?
    requires var grant := m.threads[tid].grant; grant.OfToken? && Current(m.db, grant) && grant.tokenId in m.db.refreshTokens
    ensures Reaches(env, start, n) && Invariant(n)
    ensures
      var grant := m.threads[tid].grant;
      var o := E.Rotate(env, m.db, grant.tokenId, grant.clientId, grant.scope, g);
      n.db == o.state && o.reply.Tokens? && n.threads == m.threads[tid := Answered(o.reply)]
  {
    hide Reaches, E.IsFresh, Complete, TextsNew, ForeignKeys, UniqueIndexes, E.Rotate;
    var grant := m.threads[tid].grant;
    FreshTextsAreNew(env, m.db, m.threads[tid], g);
    RotateAlone(env, m.db, grant, g);
    RotationSigns(env, m.db, grant.tokenId, grant.clientId, grant.scope, g);
    n := CompleteIsReached(env, start, m, tid, g);
  }

  /** The same for codes: two exchanges that would each succeed with one code, and both read it unused, both get tokens. */
  lemma DoubleExchange(env: Env, m: System, q: E.CodeRequest, r: E.CodeRequest, a: nat, g: E.Generated, b: nat, h: E.Generated)
    returns (n: System)
    requires Invariant(m) && a != b && a !in m.threads && b !in m.threads
    requires E.IsFresh(env, m.db, g) && E.IsFresh(env, m.db, h) && Apart(env, g, h)
    requires FindActive(m.db.keys).Some?
    requires E.JudgeCode(env, m.db, q).CodeAccepted? && E.JudgeCode(env, m.db, r).CodeAccepted?
    requires E.JudgeCode(env, m.db, q).codeId == E.JudgeCode(env, m.db, r).codeId
    ensures Reaches(env, m, n) && a in n.threads && b in n.threads
    ensures n.threads[a].Answered? && n.threads[a].reply.Tokens? && n.threads[b].Answered? && n.threads[b].reply.Tokens?
    ensures {g.accessTokenId, h.accessTokenId} <= n.db.accessTokens.Keys
    ensures n.db.accessTokens[g.accessTokenId].Live? && n.db.accessTokens[h.accessTokenId].Live?
  {
    hide Invariant, Reaches, E.IsFresh, ThreadSound, ForeignKeys, SignsNew, Apart, E.RedeemCode;
    ReachesItself(env, m);
    InvariantKeepsForeignKeys(m);
    AskedSignsNothing(m.db, AskExchange(q), g);
    AskedSignsNothing(m.db, AskExchange(r), g);
    var m1 := ReadAndApprove(env, m, m, a, AskExchange(q), g);
    var m2 := ReadAndApprove(env, m, m1, b, AskExchange(r), g);
    n := BothRedeem(env, m, m2, a, g, b, h);
  }

  /** Any two exchanges admitted for one code, whenever each read it, can both run to their answers. */
  lemma BothRedeem(env: Env, start: System, m: System, a: nat, g: E.Generated, b: nat, h: E.Generated) returns (n: System)
    requires Reaches(env, start, m) && Invariant(m) && FindActive(m.db.keys).Some?
    requires a != b && a in m.threads && b in m.threads && m.threads[a].Approved? && m.threads[b].Approved?
    requires E.IsFresh(env, m.db, g) && E.IsFresh(env, m.db, h) && Apart(env, g, h)
    requires m.threads[a].grant.OfCode? && m.threads[b].grant.OfCode?
    requires m.threads[a].grant.codeId == m.threads[b].grant.codeId && m.threads[a].grant.codeId in m.db.codes
    requires SameCode(m.db.codes[m.threads[a].grant.codeId], m.threads[a].grant.code)
    requires SameCode(m.db.codes[m.threads[b].grant.codeId], m.threads[b].grant.code)
    requires Current(m.db, m.threads[a].grant) && Current(m.db, m.threads[b].grant)
    ensures Reaches(env, start, n) && a in n.threads && b in n.threads
    ensures n.threads[a].Answered? && n.threads[a].reply.Tokens? && n.threads[b].Answered? && n.threads[b].reply.Tokens?
    ensures {g.accessTokenId, h.accessTokenId} <= n.db.accessTokens.Keys
    ensures n.db.accessTokens[g.accessTokenId].Live? && n.db.accessTokens[h.accessTokenId].Live?
  {
    hide Invariant, Reaches, E.IsFresh, ForeignKeys, E.RedeemCode, Apart;
    var first, second := m.threads[a].grant, m.threads[b].grant;
    InvariantKeepsForeignKeys(m);
    var s := RedemptionIsReached(env, start, m, a, g);
    StillFreshAfterRedemption(env, m.db, first.codeId, first.clientId, g, h);
    X.RedeemedTables(env, m.db, first.codeId, first.clientId, g);
    InvariantKeepsForeignKeys(s);
    n := RedemptionIsReached(env, start, s, b, h);
    X.RedeemedTables(env, s.db, second.codeId, second.clientId, h);
    ApartIds(env, g, h);
  }

  lemma StillFreshAfterRedemption(env: Env, s: State, id: Id, clientId: Id, g: E.Generated, h: E.Generated)
    requires ForeignKeys(s) && id in s.codes && clientId in s.clients && FindActive(s.keys).Some?
    requires E.IsFresh(env, s, g) && E.IsFresh(env, s, h) && Apart(env, g, h)
    ensures E.IsFresh(env, E.RedeemCode(env, s, id, clientId, g).state, h)
  {
    hide ForeignKeys, E.IsFresh, Apart, E.RedeemCode;
    X.RedeemedTables(env, s, id, clientId, g);
    FreshRefreshToken(env, s, g);
    RedemptionSigns(env, s, id, clientId, g);
    StillFresh(env, s, E.RedeemCode(env, s, id, clientId, g).state, g, h);
  }

  lemma FreshRefreshToken(env: Env, s: State, g: E.Generated)
    requires E.IsFresh(env, s, g)
    ensures g.refreshTokenId !in s.refreshTokens
  {
  }

  lemma RedemptionSigns(env: Env, s: State, id: Id, clientId: Id, g: E.Generated)
    requires ForeignKeys(s) && id in s.codes && clientId in s.clients && FindActive(s.keys).Some?
    ensures
      var o := E.RedeemCode(env, s, id, clientId, g);
      o.state.signed.Keys == s.signed.Keys + {g.accessText, g.idText} && o.reply.Tokens?
  {
    hide ForeignKeys, E.RedeemCode;
    X.RedeemedSigned(env, s, id, clientId, g);
    RedemptionReplies(env, s, id, clientId, g);
  }

  lemma RedemptionReplies(env: Env, s: State, id: Id, clientId: Id, g: E.Generated)
    requires ForeignKeys(s) && id in s.codes && clientId in s.clients && FindActive(s.keys).Some?
    ensures E.RedeemCode(env, s, id, clientId, g).reply.Tokens?
  {
    hide ForeignKeys, E.MintAccessToken, E.MintIdToken, E.MintRefreshToken;
  }

  lemma RedemptionIsReached(env: Env, start: System, m: System, tid: nat, g: E.Generated) returns (n: System)
    requires Reaches(env, start, m) && Invariant(m) && tid in m.threads && m.threads[tid].Approved?
    requires ForeignKeys(m.db) && E.IsFresh(env, m.db, g) && FindActive(m.db.keys).Some?
    requires var grant := m.threads[tid].grant;
      grant.OfCode? && Current(m.db, grant) && grant.codeId in m.db.codes && SameCode(m.db.codes[grant.codeId], grant.code)
    ensures Reaches(env, start, n) && Invariant(n)
    ensures
      var grant := m.threads[tid].grant;
      var o := E.RedeemCode(env, m.db, grant.codeId, grant.clientId, g);
      n.db == o.state && o.reply.Tokens? && n.threads == m.threads[tid := Answered(o.reply)]
  {
    hide Reaches, E.IsFresh, Complete, TextsNew, ForeignKeys, UniqueIndexes, E.RedeemCode;
    var grant := m.threads[tid].grant;
    FreshTextsAreNew(env, m.db, m.threads[tid], g);
    RedeemAlone(env, m.db, grant, g);
    RedemptionSigns(env, m.db, grant.codeId, grant.clientId, g);
    n := CompleteIsReached(env, start, m, tid, g);
  }
}
