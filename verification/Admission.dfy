/**
 Who is let in: exactly which clients authenticate, which logins open a session, which authorize requests get a code,
 which exchanges and refreshes get tokens, and what everybody else is answered. Everything is said about the rows of the
 tables and the request, not in terms of the functions that decide.
 */
module Admission {
  import opened Basics
  import opened Schema
  import opened Repository
  import opened Machine
  import opened Effects
  import opened Invariants
  import opened Evolution
  import E = Endpoints
  import Text

  // ---------- Clients ----------

  /** Row `id` is an active client with these credentials. */
  ghost predicate IsClient(env: Env, s: State, c: E.Credentials, id: Id) {
    && id in s.clients
    && s.clients[id].clientId == c.clientId
    && s.clients[id].status == "active"
    && env.verifyPassword(c.secret, s.clients[id].secretHash) == Ok(true)
  }

  predicate Complete(c: E.Credentials) { c.clientId != "" && c.secret != "" }

  lemma AuthenticatedExactly(env: Env, s: State, c: E.Credentials)
    requires ConfigUnique(s.tenants, s.clients, s.users)
    ensures forall id: Id :: E.AuthenticateClient(env, s, c) == Some(id) <==> Complete(c) && IsClient(env, s, c, id)
  {
    var found := FindClientByClientId(s, c.clientId);
    forall id: Id
      ensures E.AuthenticateClient(env, s, c) == Some(id) <==> Complete(c) && IsClient(env, s, c, id)
    {
      if id in s.clients && s.clients[id].clientId == c.clientId {
        assert found.Some? && s.clients[found.value].clientId == c.clientId;
      }
    }
  }

  lemma ConfigIsUnique(s: State)
    requires Integrity(s)
    ensures ConfigUnique(s.tenants, s.clients, s.users) && CodesUnique(s.codes) && RefreshTokensUnique(s.refreshTokens)
  {
    hide ForeignKeys;
  }

  predicate IsClientRequest(e: Event) { e.ExchangeCode? || e.Refresh? || e.Revoke? }

  function CredentialsOf(e: Event): E.Credentials
    requires IsClientRequest(e)
  {
    if e.ExchangeCode? then e.exchange.credentials else if e.Refresh? then e.refresh.credentials else e.revoke.credentials
  }

  /** The code or refresh token is there; a revocation request may come without a token. */
  predicate Presents(e: Event)
    requires IsClientRequest(e)
  {
    (e.ExchangeCode? ==> e.exchange.code != "") && (e.Refresh? ==> e.refresh.refreshToken != "")
  }

  /**
   Tokens are issued, and revocation requests carried out, only for an active client whose secret was presented; anybody
   else is told so and changes nothing.
   */
  lemma OnlyClientsAreServed(env: Env, s: State, e: Event)
    requires Invariant(s) && ForeignKeys(s) && IsClientRequest(e)
    ensures
      var o := Step(env, s, e);
      var served := Complete(CredentialsOf(e)) && exists id :: IsClient(env, s, CredentialsOf(e), id);
      && (o.reply.Tokens? || o.reply.NoContent? ==> served)
      && (!served && Presents(e) ==> o == E.Outcome(s, E.Failed(E.InvalidClient)))
      && (e.Revoke? && served ==> o.reply == E.NoContent)
  {
    hide Invariant, ForeignKeys, ConfigUnique, CodesUnique, RefreshTokensUnique, IsClient, E.AuthenticateClient;
    hide E.GrantCode, E.GrantRefresh, E.Revoke, Complete;
    InvariantGivesIntegrity(s);
    ConfigIsUnique(s);
    var c := CredentialsOf(e);
    AuthenticatedExactly(env, s, c);
    var found := E.AuthenticateClient(env, s, c);
    assert found.Some? ==> Complete(c) && IsClient(env, s, c, found.value);
    assert found.None? ==> !(Complete(c) && exists id :: IsClient(env, s, c, id));
    match e
    case ExchangeCode(r, g) => CodeCases(env, s, r, g);
    case Refresh(r, g) => RefreshCases(env, s, r, g);
    case Revoke(r) => RevokeCases(env, s, r);
  }

  /** How the verdict on a code request becomes the outcome, and that there is no verdict in favour of a stranger. */
  lemma CodeCases(env: Env, s: State, r: E.CodeRequest, g: E.Generated)
    requires ForeignKeys(s)
    ensures
      var v, o := E.JudgeCode(env, s, r), E.GrantCode(env, s, r, g);
      && (v.CodeRefused? ==> o == E.Outcome(s, E.Failed(v.error)))
      && (v.CodeReplayed? ==> o.reply == E.Failed(E.InvalidGrant))
      && (v.CodeAccepted? && ActiveKids(s.keys) != {} ==> o.reply.Tokens?)
      && (o.reply.Tokens? ==> v.CodeAccepted?) && !o.reply.NoContent?
      && (E.AuthenticateClient(env, s, r.credentials).None? ==>
            v.CodeRefused? && (r.code != "" ==> v.error == E.InvalidClient))
  {
    hide ForeignKeys, ActiveKids, E.AuthenticateClient, E.VerifierMatches, E.RedeemCode, E.RevokeSessionTokens;
    var v := E.JudgeCode(env, s, r);
    if v.CodeAccepted? { RedeemingAnswers(env, s, v.codeId, v.clientId, g); }
  }

  lemma RefreshCases(env: Env, s: State, r: E.RefreshRequest, g: E.Generated)
    requires ForeignKeys(s)
    ensures
      var v, o := E.JudgeRefresh(env, s, r), E.GrantRefresh(env, s, r, g);
      && (v.RefreshRefused? ==> o == E.Outcome(s, E.Failed(v.error)))
      && (v.Reused? ==> o.reply == E.Failed(E.InvalidGrant))
      && (v.Rotates? && ActiveKids(s.keys) != {} ==> o.reply.Tokens?)
      && (o.reply.Tokens? ==> v.Rotates?) && !o.reply.NoContent?
      && (E.AuthenticateClient(env, s, r.credentials).None? ==>
            v.RefreshRefused? && (r.refreshToken != "" ==> v.error == E.InvalidClient))
  {
    var v := E.JudgeRefresh(env, s, r);
    if v.Rotates? { TokenHasSession(s, v.tokenId); }
    hide ForeignKeys, ActiveKids, E.AuthenticateClient, E.RefreshedScope, E.Rotate, E.RevokeSessionTokens;
    if v.Rotates? { RotatingAnswers(env, s, v.tokenId, v.clientId, E.RefreshedScope(s, v.tokenId, r.scope), g); }
  }

  lemma RevokeCases(env: Env, s: State, r: E.RevokeRequest)
    ensures
      var o := E.Revoke(env, s, r);
      if E.AuthenticateClient(env, s, r.credentials).Some? then o.reply == E.NoContent
      else o == E.Outcome(s, E.Failed(E.InvalidClient))
  {
    hide E.AuthenticateClient, E.RevokeByHint;
  }

  lemma InvariantGivesIntegrity(s: State)
    requires Invariant(s)
    ensures Integrity(s)
  {
    hide Integrity;
  }

  // ---------- Login ----------

  /** `i` is the first password credential that carries a hash. */
  ghost predicate IsFirstPassword(credentials: seq<Credential>, i: int) {
    && 0 <= i < |credentials|
    && credentials[i].kind == "password" && credentials[i].passwordHash.Some?
    && forall j | 0 <= j < i :: !(credentials[j].kind == "password" && credentials[j].passwordHash.Some?)
  }

  lemma {:induction false} PasswordHashExactly(credentials: seq<Credential>)
    ensures
      var hash := E.FindPasswordHash(credentials);
      && (forall i :: IsFirstPassword(credentials, i) ==> hash == credentials[i].passwordHash.value)
      && (hash != "" ==> exists i :: IsFirstPassword(credentials, i))
  {
    if credentials != [] && !(credentials[0].kind == "password" && credentials[0].passwordHash.Some?) {
      var rest := credentials[1..];
      PasswordHashExactly(rest);
      forall i | IsFirstPassword(credentials, i)
        ensures E.FindPasswordHash(credentials) == credentials[i].passwordHash.value
      {
        assert IsFirstPassword(rest, i - 1);
      }
      if i :| IsFirstPassword(rest, i) {
        assert IsFirstPassword(credentials, i + 1);
      }
    } else if credentials != [] {
      assert IsFirstPassword(credentials, 0);
    }
  }

  /** User `u` of tenant `t` has this login id, is active, and the password verifies against its first password hash. */
  ghost predicate MayLogIn(env: Env, s: State, tenantCode: string, loginId: string, password: string, t: Id, u: Id) {
    && tenantCode != "" && loginId != "" && password != ""
    && t in s.tenants && s.tenants[t].code == tenantCode
    && u in s.users && s.users[u].tenantId == t && s.users[u].loginId == loginId && s.users[u].status == "active"
    && exists i ::
         && IsFirstPassword(s.users[u].credentials, i)
         && s.users[u].credentials[i].passwordHash.value != ""
         && env.verifyPassword(password, s.users[u].credentials[i].passwordHash.value) == Ok(true)
  }

  lemma FoundUser(s: State, t: Id, u: Id)
    requires ConfigUnique(s.tenants, s.clients, s.users) && t in s.tenants && u in s.users && s.users[u].tenantId == t
    ensures FindTenantByCode(s, s.tenants[t].code) == Some(t)
    ensures FindUserByTenantAndLogin(s, t, s.users[u].loginId) == Some(u)
  {
    var a := FindTenantByCode(s, s.tenants[t].code).value;
    assert s.tenants[a].code == s.tenants[t].code;
    var b := FindUserByTenantAndLogin(s, t, s.users[u].loginId).value;
    assert s.users[b].loginId == s.users[u].loginId;
  }

  /** A user who may log in gets a session of its own in its tenant, for the tenant's session lifetime. */
  lemma LoginOpens(env: Env, s: State, tenantCode: string, loginId: string, password: string, id: Id, t: Id, u: Id)
    requires Integrity(s) && ForeignKeys(s) && MayLogIn(env, s, tenantCode, loginId, password, t, u)
    ensures
      var o := Step(env, s, Login(tenantCode, loginId, password, id));
      && o.reply == E.LoggedIn(id)
      && o.state == s.(sessions := s.sessions[id :=
           Live(Session(u, t, s.now + s.tenants[t].sessionLifetime * SECOND, s.now))])
  {
    ConfigIsUnique(s);
    hide Integrity, ForeignKeys, E.FindPasswordHash;
    FoundUser(s, t, u);
    hide ConfigUnique, CodesUnique, RefreshTokensUnique;
    PasswordHashExactly(s.users[u].credentials);
  }

  /** Nobody else is logged in, and nothing changes. */
  lemma LoginRefuses(env: Env, s: State, tenantCode: string, loginId: string, password: string, id: Id)
    requires ForeignKeys(s)
    requires forall t, u :: !MayLogIn(env, s, tenantCode, loginId, password, t, u)
    ensures
      var o := Step(env, s, Login(tenantCode, loginId, password, id));
      && o.state == s && o.reply.Failed?
      && (tenantCode == "" || loginId == "" || password == "" <==> o.reply == E.Failed(E.InvalidRequest))
  {
    hide ForeignKeys, E.FindPasswordHash;
    var tenant := FindTenantByCode(s, tenantCode);
    if tenantCode != "" && loginId != "" && password != "" && tenant.Some? {
      var user := FindUserByTenantAndLogin(s, tenant.value, loginId);
      if user.Some? {
        PasswordHashExactly(s.users[user.value].credentials);
        assert !MayLogIn(env, s, tenantCode, loginId, password, tenant.value, user.value);
      }
    }
  }

  /** A login succeeds if and only if such a user exists. */
  lemma LoginExactly(env: Env, s: State, tenantCode: string, loginId: string, password: string, id: Id)
    requires Invariant(s) && ForeignKeys(s)
    ensures Step(env, s, Login(tenantCode, loginId, password, id)).reply == E.LoggedIn(id)
       <==> exists t, u :: MayLogIn(env, s, tenantCode, loginId, password, t, u)
  {
    InvariantGivesIntegrity(s);
    hide Invariant, Integrity, ForeignKeys, Step, MayLogIn;
    if t, u :| MayLogIn(env, s, tenantCode, loginId, password, t, u) {
      LoginOpens(env, s, tenantCode, loginId, password, id, t, u);
    } else {
      LoginRefuses(env, s, tenantCode, loginId, password, id);
    }
  }

  // ---------- Authorize ----------

  /** The tenant and an active client of it are known, and the redirect URI is one of the client's: errors may be sent there. */
  ghost predicate MayRedirect(s: State, r: E.AuthorizeRequest, t: Id, c: Id) {
    && t in s.tenants && s.tenants[t].code == r.tenantCode
    && r.responseType == "code" && r.clientId != ""
    && c in s.clients && s.clients[c].clientId == r.clientId && s.clients[c].status == "active" && s.clients[c].tenantId == t
    && r.redirectUri != "" && r.redirectUri in s.clients[c].redirectUris
  }

  /** Client `c` of tenant `t` may ask for a code with this request. */
  ghost predicate MayAsk(s: State, r: E.AuthorizeRequest, t: Id, c: Id) {
    && MayRedirect(s, r, t, c)
    && "openid" in Text.Split(r.scope, ' ')
    && "authorization_code" in s.clients[c].grantTypes
    && (s.clients[c].requirePkce ==> r.codeChallenge != "" && r.codeChallengeMethod == "S256")
  }

  /** The cookie names session `x`: unrevoked, expiring strictly after now, and of tenant `t`. */
  ghost predicate HasSession(s: State, r: E.AuthorizeRequest, t: Id, x: Id) {
    && r.sessionCookie == Some(x) && x in s.sessions
    && s.sessions[x].Live? && s.now < s.sessions[x].row.expiresAt && s.sessions[x].row.tenantId == t
  }

  lemma JudgedAuthorize(s: State, r: E.AuthorizeRequest)
    requires ConfigUnique(s.tenants, s.clients, s.users)
    ensures forall t: Id, c: Id :: E.JudgeAuthorize(s, r) == E.Admitted(t, c) <==> MayAsk(s, r, t, c)
    ensures var v := E.JudgeAuthorize(s, r); v.Admitted? ==> MayAsk(s, r, v.tenantId, v.clientId)
  {
    hide Text.Split;
    forall t: Id, c: Id
      ensures E.JudgeAuthorize(s, r) == E.Admitted(t, c) <==> MayAsk(s, r, t, c)
    {
      var a, b := FindTenantByCode(s, r.tenantCode), FindClientByClientId(s, r.clientId);
      if t in s.tenants && s.tenants[t].code == r.tenantCode {
        assert a.Some? && s.tenants[a.value].code == s.tenants[t].code;
      }
      if c in s.clients && s.clients[c].clientId == r.clientId {
        assert b.Some? && s.clients[b.value].clientId == s.clients[c].clientId;
      }
    }
  }

  lemma SessionExactly(s: State, r: E.AuthorizeRequest, t: Id)
    ensures forall x: Id :: E.CurrentSession(s, r, t) == Some(x) <==> HasSession(s, r, t, x)
  {
  }

  /** What a request of an admitted client is answered. */
  lemma AuthorizeAnswers(env: Env, s: State, r: E.AuthorizeRequest, id: Id, code: string, t: Id, c: Id)
    requires Integrity(s) && ForeignKeys(s) && MayAsk(s, r, t, c)
    ensures
      var o := Step(env, s, Authorize(r, id, code));
      && (forall x | HasSession(s, r, t, x) ::
            if r.prompt == "login" then o == E.Outcome(s, E.RedirectToLogin)
            else
              && o.reply == E.CodeIssued(code)
              && o.state == s.(codes := s.codes[id := AuthCode(
                   x, c, code, r.redirectUri, r.scope,
                   if r.nonce == "" then None else Some(r.nonce),
                   if r.codeChallenge == "" then None else Some(r.codeChallenge),
                   if r.codeChallengeMethod == "" then None else Some(r.codeChallengeMethod),
                   s.now + s.tenants[t].authCodeLifetime * SECOND, None)]))
      && ((forall x :: !HasSession(s, r, t, x)) ==>
            o == E.Outcome(s, if r.prompt == "none" then E.Failed(E.LoginRequired) else E.RedirectToLogin))
  {
    ConfigIsUnique(s);
    hide Integrity, ForeignKeys;
    JudgedAuthorize(s, r);
    SessionExactly(s, r, t);
    assert E.JudgeAuthorize(s, r) == E.Admitted(t, c);
    hide ConfigUnique, CodesUnique, RefreshTokensUnique, E.JudgeAuthorize, E.CurrentSession, MayAsk;
    var session := E.CurrentSession(s, r, t);
    if session.Some? {
      assert HasSession(s, r, t, session.value);
    }
    hide HasSession;
  }

  /** Every other request is refused and changes nothing. */
  lemma AuthorizeRefuses(env: Env, s: State, r: E.AuthorizeRequest, id: Id, code: string)
    requires Integrity(s) && ForeignKeys(s) && forall t, c :: !MayAsk(s, r, t, c)
    ensures
      var o := Step(env, s, Authorize(r, id, code));
      o.state == s && o.reply.Failed? && o.reply != E.Failed(E.LoginRequired)
  {
    ConfigIsUnique(s);
    hide Integrity, ForeignKeys;
    JudgedAuthorize(s, r);
    hide ConfigUnique, MayAsk;
  }

  /**
   Which error a refused request gets. The errors that are sent to the redirect URI as such, invalid_scope and
   unauthorized_client, are given only when that URI is registered for an active client of the tenant.
   */
  lemma AuthorizeErrors(env: Env, s: State, r: E.AuthorizeRequest, id: Id, code: string)
    requires Integrity(s) && ForeignKeys(s)
    ensures
      var reply := Step(env, s, Authorize(r, id, code)).reply;
      var tenant := exists t :: t in s.tenants && s.tenants[t].code == r.tenantCode;
      && (reply == E.Failed(E.NotFound) <==> !tenant)
      && (reply == E.Failed(E.UnsupportedResponseType) <==> tenant && r.responseType != "code")
      && (reply == E.Failed(E.InvalidScope) <==>
            exists t, c :: MayRedirect(s, r, t, c) && "openid" !in Text.Split(r.scope, ' '))
      && (reply == E.Failed(E.UnauthorizedClient) <==>
            exists t, c :: MayRedirect(s, r, t, c) && "openid" in Text.Split(r.scope, ' ')
              && "authorization_code" !in s.clients[c].grantTypes)
      && (reply == E.Failed(E.InvalidRequest) <==>
            && tenant && r.responseType == "code"
            && (forall t, c | MayRedirect(s, r, t, c) ::
                  && "openid" in Text.Split(r.scope, ' ') && "authorization_code" in s.clients[c].grantTypes
                  && s.clients[c].requirePkce && (r.codeChallenge == "" || r.codeChallengeMethod != "S256")))
  {
    ConfigIsUnique(s);
    hide Integrity, ForeignKeys, Text.Split, E.CurrentSession, E.NewCode;
    JudgedErrors(s, r);
    hide E.JudgeAuthorize, ConfigUnique, CodesUnique, RefreshTokensUnique, MayRedirect;
  }

  lemma JudgedErrors(s: State, r: E.AuthorizeRequest)
    requires ConfigUnique(s.tenants, s.clients, s.users)
    ensures
      var v := E.JudgeAuthorize(s, r);
      var tenant := exists t :: t in s.tenants && s.tenants[t].code == r.tenantCode;
      && (v == E.Refused(E.NotFound) <==> !tenant)
      && (v == E.Refused(E.UnsupportedResponseType) <==> tenant && r.responseType != "code")
      && (v == E.Refused(E.InvalidScope) <==>
            exists t, c :: MayRedirect(s, r, t, c) && "openid" !in Text.Split(r.scope, ' '))
      && (v == E.Refused(E.UnauthorizedClient) <==>
            exists t, c :: MayRedirect(s, r, t, c) && "openid" in Text.Split(r.scope, ' ')
              && "authorization_code" !in s.clients[c].grantTypes)
      && (v == E.Refused(E.InvalidRequest) <==>
            && tenant && r.responseType == "code"
            && (forall t, c | MayRedirect(s, r, t, c) ::
                  && "openid" in Text.Split(r.scope, ' ') && "authorization_code" in s.clients[c].grantTypes
                  && s.clients[c].requirePkce && (r.codeChallenge == "" || r.codeChallengeMethod != "S256")))
      && (v.Refused? ==> v.error != E.LoginRequired)
  {
    hide Text.Split;
    var a, b := FindTenantByCode(s, r.tenantCode), FindClientByClientId(s, r.clientId);
    assert forall t: Id, c: Id :: MayRedirect(s, r, t, c) ==> a == Some(t) && b == Some(c) by { FoundByRequest(s, r); }
    if a.Some? && b.Some? {
      assert MayRedirect(s, r, a.value, b.value) <==>
        r.responseType == "code" && r.clientId != "" && s.clients[b.value].status == "active" && s.clients[b.value].tenantId == a.value
        && r.redirectUri != "" && r.redirectUri in s.clients[b.value].redirectUris;
    }
  }

  lemma FoundByRequest(s: State, r: E.AuthorizeRequest)
    requires ConfigUnique(s.tenants, s.clients, s.users)
    ensures forall t: Id, c: Id | MayRedirect(s, r, t, c) ::
      FindTenantByCode(s, r.tenantCode) == Some(t) && FindClientByClientId(s, r.clientId) == Some(c)
  {
    var a, b := FindTenantByCode(s, r.tenantCode), FindClientByClientId(s, r.clientId);
    assert a.Some? ==> s.tenants[a.value].code == r.tenantCode;
    assert b.Some? ==> s.clients[b.value].clientId == r.clientId;
  }

  /** Who got a code, and the row it is. */
  lemma IssuedCode(env: Env, s: State, r: E.AuthorizeRequest, id: Id, code: string) returns (t: Id, c: Id, x: Id)
    requires Integrity(s) && ForeignKeys(s) && Step(env, s, Authorize(r, id, code)).reply.CodeIssued?
    ensures MayAsk(s, r, t, c) && HasSession(s, r, t, x) && r.prompt != "login"
    ensures
      var row := AuthCode(x, c, code, r.redirectUri, r.scope, if r.nonce == "" then None else Some(r.nonce),
                          if r.codeChallenge == "" then None else Some(r.codeChallenge),
                          if r.codeChallengeMethod == "" then None else Some(r.codeChallengeMethod),
                          s.now + s.tenants[t].authCodeLifetime * SECOND, None);
      Step(env, s, Authorize(r, id, code)).state == s.(codes := s.codes[id := row])
  {
    hide Integrity, ForeignKeys, Step, HasSession, MayAsk;
    if forall t, c :: !MayAsk(s, r, t, c) {
      AuthorizeRefuses(env, s, r, id, code);
      assert false;
    } else {
      t, c :| MayAsk(s, r, t, c);
      AuthorizeAnswers(env, s, r, id, code, t, c);
      x :| HasSession(s, r, t, x);
    }
  }

  /** A code is issued if and only if the client may ask for it, the session is good, and no new login is asked for. */
  lemma AuthorizeExactly(env: Env, s: State, r: E.AuthorizeRequest, id: Id, code: string)
    requires Invariant(s) && ForeignKeys(s)
    ensures
      var reply := Step(env, s, Authorize(r, id, code)).reply;
      && (reply == E.CodeIssued(code) <==> r.prompt != "login" && exists t, c, x :: MayAsk(s, r, t, c) && HasSession(s, r, t, x))
      && (reply == E.RedirectToLogin <==>
            exists t, c :: MayAsk(s, r, t, c)
              && (r.prompt == "login" || (r.prompt != "none" && forall x :: !HasSession(s, r, t, x))))
      && (reply == E.Failed(E.LoginRequired) <==>
            r.prompt == "none" && exists t, c :: MayAsk(s, r, t, c) && forall x :: !HasSession(s, r, t, x))
  {
    InvariantGivesIntegrity(s);
    hide Invariant, ForeignKeys, Step, HasSession;
    if t, c :| MayAsk(s, r, t, c) {
      AuthorizeAnswers(env, s, r, id, code, t, c);
      OneTenant(s, r, t);
    } else {
      AuthorizeRefuses(env, s, r, id, code);
    }
  }

  lemma OneTenant(s: State, r: E.AuthorizeRequest, t: Id)
    requires Integrity(s) && t in s.tenants && s.tenants[t].code == r.tenantCode
    ensures forall t', c | MayAsk(s, r, t', c) :: t' == t
  {
    hide ForeignKeys, Text.Split;
  }

  // ---------- Exchange ----------

  /** Client `c` may exchange code `x` with this request. */
  ghost predicate MayExchange(env: Env, s: State, r: E.CodeRequest, x: Id, c: Id) {
    && Complete(r.credentials) && r.code != "" && IsClient(env, s, r.credentials, c)
    && x in s.codes && s.codes[x].code == r.code
    && s.codes[x].usedAt.None? && s.now <= s.codes[x].expiresAt
    && s.codes[x].clientId == c && s.codes[x].redirectUri == r.redirectUri
    && (s.codes[x].challenge.Some? && s.codes[x].challenge.value != "" ==>
          r.verifier != "" && env.s256(r.verifier) == s.codes[x].challenge.value)
  }

  lemma JudgedCode(env: Env, s: State, r: E.CodeRequest)
    requires ConfigUnique(s.tenants, s.clients, s.users) && CodesUnique(s.codes)
    ensures forall x: Id, c: Id :: E.JudgeCode(env, s, r) == E.CodeAccepted(x, c) <==> MayExchange(env, s, r, x, c)
    ensures Complete(r.credentials) && r.code != "" && (exists c :: IsClient(env, s, r.credentials, c)) ==>
      var v := E.JudgeCode(env, s, r);
      v.CodeAccepted? || v.CodeReplayed? || v == E.CodeRefused(E.InvalidGrant)
    ensures Complete(r.credentials) && r.code == "" ==> E.JudgeCode(env, s, r) == E.CodeRefused(E.InvalidRequest)
    ensures E.JudgeCode(env, s, r).CodeReplayed? ==> exists x :: x in s.codes && s.codes[x].code == r.code && s.codes[x].usedAt.Some?
  {
    hide E.AuthenticateClient, ConfigUnique;
    AuthenticatedExactly(env, s, r.credentials);
    var a, b := E.AuthenticateClient(env, s, r.credentials), FindByCode(s.codes, r.code);
    assert a.Some? ==> IsClient(env, s, r.credentials, a.value);
    hide IsClient;
    forall x: Id, c: Id
      ensures E.JudgeCode(env, s, r) == E.CodeAccepted(x, c) <==> MayExchange(env, s, r, x, c)
    {
      assert IsClient(env, s, r.credentials, c) && Complete(r.credentials) ==> a == Some(c);
      if x in s.codes && s.codes[x].code == r.code {
        assert b.Some? && s.codes[b.value].code == s.codes[x].code;
      }
    }
  }

  lemma AdmittedExchange(env: Env, s: State, r: E.CodeRequest, x: Id, c: Id)
    requires Integrity(s) && MayExchange(env, s, r, x, c)
    ensures E.JudgeCode(env, s, r) == E.CodeAccepted(x, c) && x in s.codes && c in s.clients
  {
    hide Integrity, E.JudgeCode, ConfigUnique, CodesUnique, E.AuthenticateClient;
    ConfigIsUnique(s);
    JudgedCode(env, s, r);
  }

  /**
   An exchange gets tokens if and only if some code and client fit; an authenticated client whose request fits none is told
   invalid_grant, and unless the code was used before, nothing changes.
   */
  lemma ExchangeExactly(env: Env, s: State, r: E.CodeRequest, g: E.Generated)
    requires Invariant(s) && ForeignKeys(s)
    ensures
      var o := Step(env, s, ExchangeCode(r, g));
      var client := Complete(r.credentials) && exists c :: IsClient(env, s, r.credentials, c);
      && (o.reply.Tokens? <==> exists x, c :: MayExchange(env, s, r, x, c))
      && (client && r.code != "" && !o.reply.Tokens? ==> o.reply == E.Failed(E.InvalidGrant))
      && (!o.reply.Tokens? && (forall x | x in s.codes && s.codes[x].code == r.code :: s.codes[x].usedAt.None?) ==> o.state == s)
      && (Complete(r.credentials) && r.code == "" ==> o.reply == E.Failed(E.InvalidRequest))
  {
    hide Invariant, ForeignKeys, ActiveKids, ConfigUnique, CodesUnique, RefreshTokensUnique, MayExchange, IsClient;
    hide E.AuthenticateClient, E.GrantCode, E.JudgeCode;
    InvariantGivesIntegrity(s);
    InvariantGivesKeys(s);
    ConfigIsUnique(s);
    JudgedCode(env, s, r);
    CodeCases(env, s, r, g);
    var v := E.JudgeCode(env, s, r);
    assert v.CodeAccepted? ==> v == E.CodeAccepted(v.codeId, v.clientId);
  }

  lemma InvariantGivesKeys(s: State)
    requires Invariant(s)
    ensures ActiveKids(s.keys) != {}
  {
    hide Integrity;
  }

  lemma RedeemingAnswers(env: Env, s: State, id: Id, clientId: Id, g: E.Generated)
    requires ForeignKeys(s) && id in s.codes && clientId in s.clients
    ensures E.RedeemCode(env, s, id, clientId, g).reply == E.Failed(E.ServerError) || E.RedeemCode(env, s, id, clientId, g).reply.Tokens?
    ensures ActiveKids(s.keys) != {} ==> E.RedeemCode(env, s, id, clientId, g).reply.Tokens?
  {
    hide ForeignKeys, E.MintAccessToken, E.MintIdToken, E.MintRefreshToken;
  }

  // ---------- Refresh ----------

  /** Client `c` may refresh with token `x`, which this request presents. */
  ghost predicate MayRefresh(env: Env, s: State, r: E.RefreshRequest, x: Id, c: Id) {
    && Complete(r.credentials) && r.refreshToken != "" && IsClient(env, s, r.credentials, c)
    && "refresh_token" in s.clients[c].grantTypes
    && x in s.refreshTokens && s.refreshTokens[x].row.tokenHash == env.sha256Hex(r.refreshToken)
    && s.refreshTokens[x].Live? && s.now <= s.refreshTokens[x].row.expiresAt
    && var sid := s.refreshTokens[x].row.sessionId;
       sid in s.sessions && s.sessions[sid].Live? && s.now <= s.sessions[sid].row.expiresAt
  }

  lemma JudgedRefresh(env: Env, s: State, r: E.RefreshRequest)
    requires ForeignKeys(s) && ConfigUnique(s.tenants, s.clients, s.users) && RefreshTokensUnique(s.refreshTokens)
    ensures forall x: Id, c: Id :: E.JudgeRefresh(env, s, r) == E.Rotates(x, c) <==> MayRefresh(env, s, r, x, c)
    ensures
      var v := E.JudgeRefresh(env, s, r);
      && (v.Reused? ==> exists x :: x in s.refreshTokens && s.refreshTokens[x].Revoked?
                          && s.refreshTokens[x].row.tokenHash == env.sha256Hex(r.refreshToken))
      && forall c | Complete(r.credentials) && r.refreshToken != "" && IsClient(env, s, r.credentials, c) ::
           if "refresh_token" in s.clients[c].grantTypes then v.Rotates? || v.Reused? || v == E.RefreshRefused(E.InvalidGrant)
           else v == E.RefreshRefused(E.UnsupportedGrantType)
    ensures Complete(r.credentials) && r.refreshToken == "" ==> E.JudgeRefresh(env, s, r) == E.RefreshRefused(E.InvalidRequest)
  {
    var a, b := E.AuthenticateClient(env, s, r.credentials), FindByTokenHash(s.refreshTokens, env.sha256Hex(r.refreshToken));
    AuthenticatedExactly(env, s, r.credentials);
    if b.Some? { TokenHasSession(s, b.value); }
    hide E.AuthenticateClient, ConfigUnique, ForeignKeys;
    assert a.Some? ==> IsClient(env, s, r.credentials, a.value);
    hide IsClient;
    assert forall c: Id :: IsClient(env, s, r.credentials, c) && Complete(r.credentials) ==> a == Some(c);
    forall x: Id, c: Id
      ensures E.JudgeRefresh(env, s, r) == E.Rotates(x, c) <==> MayRefresh(env, s, r, x, c)
    {
      if x in s.refreshTokens && s.refreshTokens[x].row.tokenHash == env.sha256Hex(r.refreshToken) {
        assert b.Some? && s.refreshTokens[b.value].row.tokenHash == s.refreshTokens[x].row.tokenHash;
      }
    }
  }

  lemma AdmittedRefresh(env: Env, s: State, r: E.RefreshRequest, x: Id, c: Id)
    requires Integrity(s) && ForeignKeys(s) && MayRefresh(env, s, r, x, c)
    ensures E.JudgeRefresh(env, s, r) == E.Rotates(x, c) && x in s.refreshTokens && c in s.clients
  {
    hide Integrity, ForeignKeys, E.JudgeRefresh, ConfigUnique, RefreshTokensUnique, E.AuthenticateClient;
    ConfigIsUnique(s);
    JudgedRefresh(env, s, r);
  }

  lemma TokenHasSession(s: State, x: Id)
    requires ForeignKeys(s) && x in s.refreshTokens
    ensures s.refreshTokens[x].row.sessionId in s.sessions && s.refreshTokens[x].row.accessTokenId in s.accessTokens
  {
  }

  /**
   A refresh gets tokens if and only if some token and client fit. A client without the grant is told so; otherwise an
   authenticated client is told invalid_grant, and unless the token was revoked before, nothing changes.
   */
  lemma RefreshExactly(env: Env, s: State, r: E.RefreshRequest, g: E.Generated)
    requires Invariant(s) && ForeignKeys(s)
    ensures
      var o := Step(env, s, Refresh(r, g));
      && (o.reply.Tokens? <==> exists x, c :: MayRefresh(env, s, r, x, c))
      && (forall c | Complete(r.credentials) && r.refreshToken != "" && IsClient(env, s, r.credentials, c) && !o.reply.Tokens? ::
            o.reply == E.Failed(if "refresh_token" in s.clients[c].grantTypes then E.InvalidGrant else E.UnsupportedGrantType))
      && (!o.reply.Tokens?
          && (forall x | x in s.refreshTokens && s.refreshTokens[x].row.tokenHash == env.sha256Hex(r.refreshToken) :: s.refreshTokens[x].Live?)
          ==> o.state == s)
      && (Complete(r.credentials) && r.refreshToken == "" ==> o.reply == E.Failed(E.InvalidRequest))
  {
    hide Invariant, ForeignKeys, ActiveKids, ConfigUnique, CodesUnique, RefreshTokensUnique, MayRefresh, IsClient;
    hide E.AuthenticateClient, E.GrantRefresh, E.JudgeRefresh;
    InvariantGivesIntegrity(s);
    InvariantGivesKeys(s);
    ConfigIsUnique(s);
    JudgedRefresh(env, s, r);
    RefreshCases(env, s, r, g);
    var v := E.JudgeRefresh(env, s, r);
    assert v.Rotates? ==> v == E.Rotates(v.tokenId, v.clientId);
  }

  lemma RotatingAnswers(env: Env, s: State, id: Id, clientId: Id, scope: string, g: E.Generated)
    requires ForeignKeys(s) && id in s.refreshTokens && clientId in s.clients
    ensures
      var reply := E.Rotate(env, s, id, clientId, scope, g).reply;
      (reply == E.Failed(E.ServerError) || reply.Tokens?) && (ActiveKids(s.keys) != {} ==> reply.Tokens?)
  {
    hide ForeignKeys, E.MintAccessToken, E.MintRefreshToken;
  }

  // ---------- PKCE over runs ----------

  /**
   A code issued to a client that required PKCE at the time is only ever exchanged with a non-empty verifier that hashes
   to the non-empty challenge of the authorize request.
   */
  lemma PkceIsEnforced(env: Env, trace: seq<State>, events: seq<Event>, k: nat, n: nat, c: Id)
    requires IsRun(env, trace, events) && k < n < |events| && ForeignKeys(trace[k]) && ForeignKeys(trace[n])
    requires events[k].Authorize? && Step(env, trace[k], events[k]).reply.CodeIssued?
    requires c in trace[k].clients && trace[k].clients[c].clientId == events[k].authorize.clientId && trace[k].clients[c].requirePkce
    requires events[n].ExchangeCode? && events[n].exchange.code == events[k].code && Step(env, trace[n], events[n]).reply.Tokens?
    ensures events[n].exchange.verifier != "" && events[k].authorize.codeChallenge != ""
    ensures env.s256(events[n].exchange.verifier) == events[k].authorize.codeChallenge
  {
    hide Invariant, Step, ForeignKeys, Evolved;
    var e, r := events[k], events[k].authorize;
    RunIsContinuation(env, trace, events);
    InvariantAlways(env, trace, events, k);
    InvariantAlways(env, trace, events, n);
    assert Next(env, trace[k], e, trace[k + 1]);
    IssuedChallenge(env, trace[k], e, c);
    EvolvesAlong(env, trace, events, k + 1, n);
    ExchangeExactly(env, trace[n], events[n].exchange, events[n].generated);
    assert events[n] == ExchangeCode(events[n].exchange, events[n].generated);
    var x, client :| MayExchange(env, trace[n], events[n].exchange, x, client);
    SameCodeSameRow(trace[n], x, e.newCode);
  }

  lemma IssuedChallenge(env: Env, s: State, e: Event, c: Id)
    requires Invariant(s) && ForeignKeys(s) && e.Authorize? && Step(env, s, e).reply.CodeIssued?
    requires c in s.clients && s.clients[c].clientId == e.authorize.clientId && s.clients[c].requirePkce
    ensures
      var t := Step(env, s, e).state;
      && e.authorize.codeChallenge != ""
      && e.newCode in t.codes && t.codes[e.newCode].code == e.code
      && t.codes[e.newCode].challenge == Some(e.authorize.codeChallenge)
  {
    InvariantGivesIntegrity(s);
    hide Invariant, ForeignKeys, Step, HasSession, Integrity;
    assert e == Authorize(e.authorize, e.newCode, e.code);
    var t, d, x := IssuedCode(env, s, e.authorize, e.newCode, e.code);
    OneClient(s, c, d);
  }

  lemma OneClient(s: State, c: Id, d: Id)
    requires Integrity(s) && c in s.clients && d in s.clients && s.clients[c].clientId == s.clients[d].clientId
    ensures c == d
  {
    hide ForeignKeys;
  }

  lemma SameCodeSameRow(s: State, x: Id, y: Id)
    requires Invariant(s) && x in s.codes && y in s.codes && s.codes[x].code == s.codes[y].code
    ensures x == y
  {
    hide ForeignKeys, RotationSound, TenantsCohere;
  }
}
