# An OpenID provider's token life cycle, and a relying party's string formats

This project models two programs of one repository and proves what they guarantee.

**The provider** (Go, `op/backend`) keeps tenants, users, clients, sessions, authorization codes, access tokens,
refresh tokens, ID-token records and signing keys as database rows. Each endpoint is a short program over those rows:
login, authorize, code exchange (RFC 6749 section 4.1.3, RFC 7636 section 4.6), refresh with rotation and reuse
detection (RFC 6749 section 6, RFC 9700 section 4.14.2), revocation (RFC 7009 section 2), userinfo, incident
response, key rotation, tenant lifetimes. No single function states what the whole guarantees; it follows from what
all steps keep together.

**The relying party** (TypeScript, `rp/src`) signs a session cookie that two runtimes verify differently, and stores
tokens encrypted as hexadecimal text.

The provider is modelled three times, and the three are tied together by proof:

- `Database.dfy` and `Handlers.dfy`: a class of tables with one method per repository call (bulk updates are loops
  that count the rows they affect), and one method per handler in the source's order of checks and writes.
- `Endpoints.dfy` and `Machine.dfy`: each endpoint as a function from state and request to state and reply, and the
  runs made of such steps. Every handler method is proved to do exactly what its function says. This is the serial
  granularity: a request is one step with one `now`, and store calls succeed.
- `Micro.dfy`: the token endpoint with each repository call as one atomic step. Requests interleave with each other and
  with arbitrary writes of the other endpoints, any call may fail, errors the source discards are discarded, the
  clock moves between calls, and a request may stop anywhere. A request that runs alone is proved to be the serial
  step.

| file | content |
|---|---|
| `Basics.dfy`, `Text.dfy` | options, rows revoked once, the update loop; splitting and joining |
| `Schema.dfy`, `Repository.dfy` | row types, foreign keys, unique indexes; what each repository call does |
| `Endpoints.dfy`, `Machine.dfy` | endpoints as functions; events, steps, runs |
| `Effects.dfy`, `Invariants.dfy`, `Evolution.dfy` | the six things a step can do; the invariant; what never changes back |
| `Families.dfy`, `Reuse.dfy`, `Counting.dfy`, `Expiry.dfy` | refresh-token families, takedown, conservation, expiry |
| `Admission.dfy`, `Answers.dfy` | who is let in, and what is answered, over the rows of the tables |
| `Acceptance.dfy`, `KeyLifecycle.dfy`, `Provenance.dfy`, `Completeness.dfy` | userinfo, keys, where codes come from, honest clients are served |
| `Incidents.dfy`, `Hints.dfy` | bulk revocation, the revocation hint |
| `Database.dfy`, `Handlers.dfy` | the imperative provider |
| `Micro.dfy`, `MicroInvariants.dfy`, `MicroRuns.dfy`, `MicroAlone.dfy`, `MicroExchanges.dfy`, `MicroRaces.dfy` | the interleaved token endpoint |
| `Hex.dfy`, `Cookies.dfy`, `Sealed.dfy`, `RpSessions.dfy` | the relying party |
| `Argon2.dfy` | the provider's stored password hashes |

`dafny verify dfyconfig.toml` checks everything.

## What serial runs guarantee, and what only they guarantee

In serial runs a refresh token has at most one child and a code at most one successful exchange. Under interleaving
both fail, and the project says how far. `MicroRaces.Twins` and `MicroRaces.DoubleExchange` show that *whenever* two
requests would each succeed with the same token or code, and both read it before either writes, both can succeed.
`MicroRuns.ChildrenBounded` and `MicroExchanges.ExchangesBounded` bound the damage in every interleaving: a token never
has more children, and a code never gives more access tokens or ID tokens, than there were requests that read it
unspent. One such request means at most one child, or one exchange. What survives every interleaving is in
`MicroRuns.AnyInterleaving`, `MicroRuns.FirstRevocationStays`, `MicroRuns.ChildReadParentLive` and
`MicroExchanges.RowReadUnspent`.

Where documentation and code differ, the code is followed: `docs/design/03-api-design.md:218` says that a reused
refresh token revokes the whole session. The code revokes the session's tokens and leaves the session row as it is
(`Reuse.ReusedRefreshToken` states both). The two cookie verifiers differ: Node also accepts upper-case digits and
trailing text (`Cookies.NodeAcceptsExactly`, `EdgeExactly`, `TrailingTextDivides`).

## Assumptions

- Library functions are parameters: password check, SHA-256, the S256 transformation, at_hash, HMAC, AES-GCM, UTF-8,
  argon2. Where a law is needed it is a `requires` (opening undoes sealing; the hash is collision-free where the
  revocation hint is concerned).
- A signed token is a string recorded with its contents when it is signed; a string verifies under a key exactly
  when it was recorded with that key. There is no forgery.
- Generated ids, codes and tokens are new. Signed strings contain a dot, refresh tokens (hexadecimal) do not.
- A client is never moved to another tenant, renamed or re-enabled, and a user is never moved; rows are never deleted.

## Model

| member | source | states |
|---|---|---|
| Invariants.InvariantAlways | op/backend/internal/oidc/token_refresh.go:52-132 | In every state reached by any sequence of requests, ticks and administration: foreign keys and unique indexes hold, a session's tenant is its user's, a code's client and session share a tenant, lifetimes are positive, `active` means `rotated_at` is null and some key is active, every parent token is revoked, in its child's session and has one child, and a refresh token is revoked only together with the access token it is paired with |
| Invariants.InvariantInitially | op/backend/internal/jwt/key_service.go:34-46 | A started provider without sessions or tokens satisfies that invariant |
| Invariants.InvariantKept | op/backend/internal/oidc/token_authcode.go:57-173 | Each of the sixteen kinds of step keeps it |
| Invariants.RotationKept | op/backend/internal/oidc/token_refresh.go:69-132 | Exchange, rotation and every kind of revocation keep parents revoked and single-childed, and pairs in one session and revoked together |
| Effects.StepHasEffect | op/backend/internal/oidc/token.go:57-72 | Every step either leaves the session, code and token tables alone or logs in, issues a code, redeems an unused unexpired code, rotates a live unexpired token of a live session, or revokes sets of rows in which a refresh token never goes without its access token |
| Evolution.EvolvesAlong | op/backend/internal/store/refresh_token_repository.go:42-56 | Along any run rows stay, a first revocation time never changes, a used code stays used with its time, an inactive key stays inactive, a disabled client stays disabled, tenant codes and signed contents never change |
| Families.LineageIsAcyclic | op/backend/internal/oidc/token_refresh.go:122-132 | No refresh token occurs twice on its chain of parents |
| Families.FamilyIsPath | op/backend/internal/oidc/token_refresh.go:69-132 | The family of a root is one finite path without repetition, all in one session; every member but the last is revoked and so is its access token |
| Families.FamilyHasOneLive | op/backend/internal/oidc/token_refresh.go:70-75 | A family has at most one live refresh token and at most one live access token |
| Families.EveryTokenHasItsFamily | op/backend/internal/oidc/token_authcode.go:163-172 | In every reachable state every refresh token lies on the path that is its family |
| Families.DeadFamilyForever | op/backend/internal/oidc/token_refresh.go:52-57 | On every continuation a family that is revoked throughout gains no member at all |
| Reuse.ReusedRefreshToken | op/backend/internal/oidc/token_refresh.go:50-58 | A revoked refresh token presented by any client allowed to refresh is refused, marked as reused, and every token of its session is then revoked; every other row, and every session row, is unchanged |
| Reuse.ReplayedCode | op/backend/internal/oidc/token_authcode.go:56-62 | A used code presented by any active client is refused and takes down its session's tokens and nothing else |
| Reuse.TakenDownForGood | op/backend/internal/oidc/token_refresh.go:52-57 | After such a takedown every family of the session stays exactly as it is on every continuation |
| Counting.SessionAccounts | op/backend/internal/oidc/token_authcode.go:89-173 | Per session in serial runs: used codes = ID-token rows; access-token rows = ID-token rows + refresh tokens with a parent; live access tokens are at most the used codes |
| Counting.RevokedSessionResidue | op/backend/internal/oidc/token_refresh.go:65-67 | Once a session is revoked, on every continuation it stays revoked, gets no new code and no rotation, and access tokens minted plus codes left unused stay constant, so at most as many are minted as it had unused codes |
| Counting.RevokedSessionRefusesRefresh | op/backend/internal/oidc/token_refresh.go:59-67 | A refresh with any token of a revoked session fails and adds no refresh token |
| Expiry.AccessOutlivesSessionBriefly | op/backend/internal/oidc/authorize.go:122-180 | If a tenant's code and access-token lifetimes stayed within a and t up to some point of a run, every access token of that tenant's sessions expires strictly before its session's expiry plus a + t, however often it is rotated, however lifetimes are edited, and whatever other tenants' lifetimes are |
| Acceptance.AcceptedExactly | op/backend/internal/oidc/userinfo.go:40-51 | A signed access token is accepted if and only if its key is published, it has not expired and its row is not revoked |
| Acceptance.RejectedForever | op/backend/internal/oidc/userinfo.go:40-51 | A signed token that userinfo rejects at some point of a run is rejected at every later point, whatever happens in between |
| Acceptance.SignedAlwaysRecorded | op/backend/internal/oidc/token_authcode.go:103-125 | Every signed access token has a row with its jti, session, scope and expiry, and its subject is the session's user |
| Acceptance.AcceptedGetsClaims | op/backend/internal/oidc/userinfo.go:53-79 | In every run an accepted token's subject is an existing user, the user of the token's session, and userinfo answers claims about that user; `Answers.UserInfoExactly` says which |
| KeyLifecycle.Startup | op/backend/internal/jwt/key_service.go:34-46 | Startup on any consistent key table leaves an active key: the ones there, or exactly one new one |
| KeyLifecycle.ActiveCount | op/backend/internal/management/key.go:79-111 | Through any run at least one key is active, never more than at its start, and `active` holds exactly when `rotated_at` is null |
| KeyLifecycle.MintedIsAccepted | op/backend/internal/jwt/token_service.go:69-158 | In every run the access token that a successful exchange or refresh answers verifies under a published key, is unexpired and unrevoked, and userinfo answers it at once with its user's claims; the ID token answered with it is signed with a published key |
| KeyLifecycle.VerifiesUntilRetired | op/backend/internal/store/sign_key_repository.go:74-89 | A key is active later if and only if no rotation and no successful deactivation of it came in between |
| KeyLifecycle.SignatureLifetime | op/backend/internal/jwt/token_service.go:113-122 | A signature that verifies goes on verifying exactly until its key is rotated out or deactivated |
| Provenance.CodeHistory | op/backend/internal/oidc/authorize.go:161-190 | Every stored code was written by one earlier authorize request, from that request's client, redirect URI, challenge and session |
| Provenance.ExchangedOnce | op/backend/internal/oidc/token_authcode.go:57-91 | Two successful exchanges of a serial run used different codes |
| Provenance.ExchangeProvenance | op/backend/internal/oidc/token_authcode.go:69-137 | A successful exchange goes back to one authorize request of the same client, with the same redirect URI, registered for the client then; a challenge is met by the verifier; and the ID token's issuer is what discovery publishes for the tenant whose authorize endpoint was used, with the request's nonce and the at_hash of the access token |
| Provenance.ExchangeUsesCode | op/backend/internal/oidc/token_authcode.go:46-91 | A successful exchange was of an unused code of that client with that redirect URI and a matching verifier, and leaves it used |
| Completeness.IssuedCodeIsExchangeable | op/backend/internal/oidc/token_authcode.go:31-183 | After any continuation in which nobody presented it, an issued code is accepted from its client, with the redirect URI and verifier of the request, up to and including its expiry instant |
| Completeness.RefreshesSucceed | op/backend/internal/oidc/token_refresh.go:21-141 | In any continuation, whatever others do between, every refresh that presents the newest token before it and the session expire succeeds, and the lineage grows by exactly the tokens minted, only the last live; the events that would spoil it are listed and can be checked beforehand: revoking the session or the newest token, anyone presenting that token, a revoked refresh token or a used code of the session, and taking the client's status, grant or secret away |
| Completeness.FromCodeToFamily | op/backend/internal/oidc/token_authcode.go:155-183 | An accepted exchange succeeds, and in every continuation that does not spoil it all n timely refreshes with the newest token succeed and leave a family of exactly n + 1 tokens with only the last live |
| Completeness.NewTipHasTime | op/backend/internal/management/tenant.go:193-226 | However tenants are edited, the refresh token a refresh mints expires strictly later |
| Completeness.RefreshSucceeds | op/backend/internal/oidc/token_refresh.go:21-141 | A refresh of a live, unexpired token of a live, unexpired session succeeds, revokes it and leaves a live child that expires one refresh-token lifetime later |
| Admission.OnlyClientsAreServed | op/backend/internal/oidc/token_authcode.go:31-45 | Tokens are issued and revocation requests carried out only if some active client row has the presented client id and a secret hash the presented secret verifies against; without one, a request with its parameters is answered invalid_client and changes nothing |
| Admission.LoginExactly | op/backend/internal/auth/service.go:34-92 | A login succeeds if and only if some tenant has the code and some active user of it has the login id and, as the first password credential with a hash, a non-empty hash that the password verifies against |
| Admission.LoginOpens | op/backend/internal/auth/service.go:63-90 | Such a login adds exactly one session, of that user and tenant, created now and expiring one session lifetime later |
| Admission.LoginRefuses | op/backend/internal/auth/service.go:34-69 | Any other login fails and changes nothing |
| Admission.PasswordHashExactly | op/backend/internal/auth/service.go:108-115 | The hash checked is that of the first password credential that carries one, and there is none if the hash is empty for want of one |
| Admission.AuthorizeExactly | op/backend/internal/oidc/authorize.go:43-202 | A code is issued if and only if the tenant, response type, active client of the tenant, registered redirect URI, openid scope, grant type and PKCE rule fit, the cookie names an unrevoked session of the tenant that expires strictly after now, and no new login is asked for; when login and login_required are answered, likewise |
| Admission.AuthorizeAnswers | op/backend/internal/oidc/authorize.go:122-190 | The code row, field by field, and the answers with and without a session for every prompt |
| Admission.AuthorizeErrors | op/backend/internal/oidc/authorize.go:60-120 | Exactly when each error is given; invalid_scope and unauthorized_client, which are sent to the redirect URI, only when that URI is registered for an active client of the tenant |
| Admission.PkceIsEnforced | op/backend/internal/oidc/authorize.go:113-120 | In every run a code issued to a client that required PKCE is exchanged only with a non-empty verifier that hashes to the non-empty challenge of its authorize request |
| Admission.ExchangeExactly | op/backend/internal/oidc/token_authcode.go:31-91 | An exchange gets tokens if and only if an unused, unexpired code of the authenticated client fits the redirect URI and verifier; an authenticated client is otherwise told invalid_grant, and unless the code was used, nothing changes |
| Admission.RefreshExactly | op/backend/internal/oidc/token_refresh.go:21-67 | A refresh gets tokens if and only if an authenticated client with the grant presents an unrevoked, unexpired token of an unrevoked, unexpired session; otherwise unsupported_grant_type or invalid_grant, and unless the token was revoked, nothing changes |
| Answers.ExchangeTells | op/backend/internal/oidc/token_authcode.go:93-183 | Every field an exchange answers, signs and stores, from the rows of code, client, session and tenant: issuer, subject, audience, scope, nonce, auth_time, at_hash, expiries, expires_in; both tokens are signed with the newest active key |
| Answers.RefreshTells | op/backend/internal/oidc/token_refresh.go:77-141 | Every field a refresh answers, signs and stores; reply, signed token and row all carry the requested scope, or else the scope of the access token paired with the presented refresh token; the token is signed with the newest active key |
| Answers.ScopeHistory | op/backend/internal/oidc/token_refresh.go:86-90 | In every run each refresh token was minted by one step with the scope it still has: the exchanged code's, the requested one, or its parent's |
| Answers.LineageKeepsCodeScope | op/backend/internal/oidc/token_refresh.go:86-90 | Along a lineage of refreshes without scope, the scope stays that of the code at its start, whatever happened in between |
| Answers.UserInfoExactly | op/backend/internal/oidc/userinfo.go:30-79 | In every run claims are answered if and only if the token is a signed access token of an active key, unexpired, with an unrevoked row; the subject is its session's user; email and email_verified are there if and only if the scopes include email, updated_at if and only if they include profile, name if moreover the user has one, each with the user row's value, and no other key; any other token is invalid |
| Answers.ScopesAreWords | op/backend/internal/oidc/userinfo.go:64-66 | The scopes are the words between single spaces |
| Answers.TenantCreatedExactly | op/backend/internal/management/tenant.go:97-148 | A tenant is created if and only if the request is well-formed, given lifetimes are positive and the code is new, with the given lifetimes or the defaults; the errors otherwise |
| Answers.TenantUpdatedExactly | op/backend/internal/management/tenant.go:171-226 | An update sets exactly the lifetimes given and keeps the code, the other lifetimes and the other tenants; the errors otherwise |
| Answers.KeyDeactivatedExactly | op/backend/internal/management/key.go:79-111 | A key is deactivated if and only if it is active and not the last active one, with `rotated_at` now and no other key changed; the errors otherwise |
| Answers.KeyRotatedExactly | op/backend/internal/jwt/key_service.go:48-61 | A rotation retires exactly the active keys and creates one |
| Answers.IncidentExactly | op/backend/internal/management/incident.go:47-148 | An incident request revokes now exactly the live sessions, access tokens and refresh tokens of the sessions it is about and answers how many of each |
| Incidents.CampaignIsOneRevocation | op/backend/internal/management/incident.go:47-148 | Any campaign of incident requests, at any times, in any order, with any overlap, and with ticks and administration between, leaves the same rows and the same of them revoked as one revocation of all its sessions at its start, and its row counts sum to that one's |
| Incidents.TenantByTenantIsAll | op/backend/internal/management/incident.go:75-111 | Requests for every tenant in turn, at any times and in any order, revoke the rows that one revoke-all would have, with counts that sum to its counts |
| Incidents.UserByUserIsTenant | op/backend/internal/management/incident.go:113-148 | Requests for every user of a tenant, at any times and in any order, revoke the rows that one request for the tenant would have, with the same totals |
| Incidents.RepeatDoesNothing | op/backend/internal/store/session_repository.go:46-73 | Repeating a bulk revocation later affects no row and changes nothing |
| Hints.HintIsOnlyOrder | op/backend/internal/oidc/revoke.go:61-109 | For every token and every hint the outcome is the revocation of the record the token denotes, with its access token if it is a refresh token |
| Hints.RevocationAlongRuns | op/backend/internal/oidc/revoke.go:61-109 | In every state of a run all hints lead to the same state; and for any token, even one that denotes nothing, a request repeated with another hint before anything but the clock has moved changes nothing |
| Hints.RepeatedRevocation | op/backend/internal/oidc/revoke.go:61-109 | Once a request has revoked the record its token denotes, a second request with that token at any later point of the run, with any hint and whatever happened between, changes nothing |
| Basics.UpdateRevokedAt | op/backend/internal/store/access_token_repository.go:49-89 | The conditional update loop, visiting rows in any order, revokes exactly the live rows that satisfy the condition and counts exactly those |
| Basics.RevokeTwice | op/backend/internal/store/access_token_repository.go:68-89 | Two conditional updates are one of the union, and their counts add up |
| Store.Database.RevokeAccessToken | op/backend/internal/store/access_token_repository.go:41-47 | Revokes the one row if it is live, changes nothing else, keeps the database's guarantees |
| Store.Database.RevokeAccessTokensOf | op/backend/internal/store/access_token_repository.go:49-89 | Bulk revocation by sessions (one session, a tenant's or a user's) with its row count |
| Store.Database.RevokeRefreshTokensOf | op/backend/internal/store/refresh_token_repository.go:50-98 | The same for refresh tokens |
| Store.Database.RevokeSessionsByTenantID | op/backend/internal/store/session_repository.go:56-64 | Revokes the tenant's live sessions and counts them |
| Store.Database.MarkAsUsed | op/backend/internal/store/authorization_code_repository.go:41-47 | Sets `used_at` unconditionally |
| Store.Database.FindActive | op/backend/internal/store/sign_key_repository.go:24-37 | Finds the newest active key, the smallest id among equals, or none exactly when none is active |
| Store.Database.FirstOf | op/backend/internal/store/sign_key_repository.go:24-49 | The loop that picks the first row of the ordering finds one that no other row precedes |
| Store.Database.DeactivateAllActive | op/backend/internal/store/sign_key_repository.go:83-89 | The loop over active keys deactivates exactly them |
| Handlers.Provider.Login | op/backend/internal/auth/service.go:34-92 | In the source's order of checks, does and answers what the login step does, which `Admission.LoginExactly`, `LoginOpens` and `LoginRefuses` characterise over the tables |
| Handlers.Provider.ValidateSession | op/backend/internal/auth/service.go:94-106 | A session is valid if and only if it exists, is unrevoked and expires strictly after now |
| Handlers.Provider.Authorize | op/backend/internal/oidc/authorize.go:43-202 | Does and answers what the authorize step does, which `Admission.AuthorizeExactly`, `AuthorizeAnswers` and `AuthorizeErrors` characterise over the tables |
| Handlers.Contains | op/backend/internal/oidc/authorize.go:219-235 | The search loop finds the target if and only if it is in the list |
| Handlers.FindPasswordHash | op/backend/internal/auth/service.go:108-115 | The loop returns the hash of the first password credential that has one |
| Handlers.Provider.HandleAuthCodeGrant | op/backend/internal/oidc/token_authcode.go:31-91 | Client authentication and the checks on the code in order: does and answers what the exchange step does, including the takedown on replay; `Admission.OnlyClientsAreServed`, `Admission.ExchangeExactly` and `Answers.ExchangeTells` characterise that step |
| Handlers.Provider.RedeemCode | op/backend/internal/oidc/token_authcode.go:88-183 | Marks the code, then signs and stores access token, ID token and root refresh token, as the redemption step |
| Handlers.Provider.HandleRefreshTokenGrant | op/backend/internal/oidc/token_refresh.go:21-67 | Client authentication, lookup, reuse detection and expiry checks in order, as the refresh step, which `Admission.RefreshExactly` characterises |
| Handlers.Provider.Rotate | op/backend/internal/oidc/token_refresh.go:69-141 | Revokes the old pair, keeps the old scope unless one is requested, then signs and stores the new pair, as the rotation step, whose answer, signed token and rows `Answers.RefreshTells` gives field by field |
| Handlers.Provider.UserInfo | op/backend/internal/oidc/userinfo.go:30-79 | Answers what the userinfo step answers, which `Answers.UserInfoExactly` characterises |
| Handlers.Provider.BuildClaims | op/backend/internal/oidc/userinfo.go:53-79 | The claims map filled in place is the one whose keys and values `Answers.ClaimsTell` lists |
| Handlers.Provider.ValidateAccessToken | op/backend/internal/jwt/token_service.go:113-158 | Succeeds if and only if the string is an access token signed with a published key and not expired |
| Handlers.Provider.GetJWKSet | op/backend/internal/jwt/key_service.go:139-178 | The loop collects exactly the active keys |
| Handlers.Provider.Revoke | op/backend/internal/oidc/revoke.go:39-80 | Client authentication, then the hint's order of attempts, as the revocation step; `Admission.OnlyClientsAreServed` and `Hints.HintIsOnlyOrder` characterise that step |
| Handlers.Provider.RevokeRefreshToken | op/backend/internal/oidc/revoke.go:98-109 | Revokes the token and its access token if the hash is known and says whether it was |
| Handlers.Provider.HandleRevokeAll | op/backend/internal/management/incident.go:47-73 | Three bulk updates with their counts, as the revoke-all step |
| Handlers.Provider.HandleRevokeTenant | op/backend/internal/management/incident.go:75-111 | The same for one tenant |
| Handlers.Provider.HandleRevokeUser | op/backend/internal/management/incident.go:113-148 | The same for one user |
| Handlers.Provider.EnsureSigningKey | op/backend/internal/jwt/key_service.go:34-46 | Creates a key exactly when none is active |
| Handlers.Provider.RotateKey | op/backend/internal/jwt/key_service.go:48-61 | Deactivates all active keys, then creates one |
| Handlers.Provider.HandleDeactivate | op/backend/internal/management/key.go:79-111 | Refuses unknown keys, inactive keys and the last active key |
| Handlers.ValidateLifetimes | op/backend/internal/management/tenant.go:235-242 | The loop accepts if and only if every given lifetime is positive |
| Handlers.Provider.HandleCreateTenant | op/backend/internal/management/tenant.go:97-148 | Does and answers what the tenant-creation step does |
| Handlers.Provider.HandleUpdateTenant | op/backend/internal/management/tenant.go:171-226 | Does and answers what the tenant-update step does |
| Invariants.TenantsAfterUpdate | op/backend/internal/management/tenant.go:193-226 | No tenant update makes a lifetime of any tenant non-positive |
| Invariants.TenantsAfterCreate | op/backend/internal/management/tenant.go:97-148 | Nor does creating a tenant, with defaults for what is not given |
| MicroInvariants.StepKeepsInvariant | op/backend/internal/oidc/token_refresh.go:42-132 | One repository call of any request, or any write of another endpoint, keeps what every interleaving keeps and changes no first revocation time |
| MicroRuns.AnyInterleaving | op/backend/internal/oidc/token_refresh.go:69-132 | After any interleaving with failures and requests stopping anywhere: every parent is revoked and in its child's session, every refresh token is in its access token's session, every access token comes from a revoked token or a used code of its session, every ID token from a used code of its session |
| MicroRuns.FirstRevocationStays | op/backend/internal/store/refresh_token_repository.go:42-56 | Under any interleaving a first revocation time of a session, access token or refresh token never changes |
| MicroRuns.ChildReadParentLive | op/backend/internal/oidc/token_refresh.go:42-132 | Every child was stored by a request that, at an earlier step, had read its parent while the parent was unrevoked |
| MicroExchanges.RowReadUnspent | op/backend/internal/oidc/token_authcode.go:47-148 | Every access token and every ID-token row was stored by a request that had earlier read its code unused, or its refresh token unrevoked |
| MicroExchanges.OneRowPerRequest | op/backend/internal/oidc/token_authcode.go:103-148 | A request stores at most one access token and at most one ID-token row in a whole run |
| MicroExchanges.ExchangesBounded | op/backend/internal/oidc/token_authcode.go:47-148 | In every interleaving a code gives at most as many access tokens, and at most as many ID-token rows, as requests read it before it was marked used; with one such request, at most one of each |
| MicroRuns.OneMintPerRequest | op/backend/internal/oidc/token_refresh.go:122-132 | A request stores at most one refresh token in a whole run |
| MicroRuns.ChildrenBounded | op/backend/internal/oidc/token_refresh.go:42-132 | A refresh token has at most as many children as requests read it before its first revocation |
| MicroAlone.RefreshAlone | op/backend/internal/oidc/token_refresh.go:21-141 | Taken call by call without interference, a refresh request ends in the state and with the reply of the one-step refresh, on every path |
| MicroAlone.ExchangeAlone | op/backend/internal/oidc/token_authcode.go:31-183 | The same for a code exchange |
| MicroRaces.RefreshIsReached | op/backend/internal/oidc/token_refresh.go:21-141 | Every one-step refresh is a path of the interleaved system |
| MicroRaces.ExchangeIsReached | op/backend/internal/oidc/token_authcode.go:31-183 | Every one-step exchange is a path of the interleaved system |
| MicroRaces.Twins | op/backend/internal/oidc/token_refresh.go:42-75 | Whenever two refresh requests, of whatever clients and scopes, would each succeed with the same token, and both read it before either revokes it, both can succeed, and the token has two live children |
| MicroRaces.BothRotate | op/backend/internal/oidc/token_refresh.go:69-141 | Any two refreshes admitted for one token, whenever each read it, can both run to their answers |
| MicroRaces.DoubleExchange | op/backend/internal/oidc/token_authcode.go:47-91 | Whenever two exchange requests would each succeed with the same code, and both read it unused, both can succeed with live access tokens |
| MicroRaces.BothRedeem | op/backend/internal/oidc/token_authcode.go:88-183 | Any two exchanges admitted for one code, whenever each read it, can both run to their answers |
| Hex.DecodeExactly | rp/src/lib/session/index.ts:28-32 | A text reads as given bytes if and only if, in lower case, it starts with their digits and nothing more can be read after them |
| Hex.DecodeEncode | rp/src/lib/crypto.ts:40-42 | Reading undoes writing |
| Hex.EncodedExactly | rp/src/middleware.ts:32-34 | Each byte is written as two digits of 0-9a-f, the high half first |
| Cookies.VerifySignature | rp/src/middleware.ts:7-43 | The Edge check accepts if and only if the text after the last dot equals the signature's digits |
| Cookies.SameText | rp/src/middleware.ts:36-42 | The loop of XOR and OR finds zero if and only if the texts are equal |
| Cookies.NodeAcceptsExactly | rp/src/lib/session/index.ts:17-35 | Node accepts exactly the right 64 digits in either case followed by text that cannot be read on, and returns the id before the last dot |
| Cookies.EdgeRefinesNode | rp/src/middleware.ts:7-43 | Whatever the Edge check accepts, Node accepts with the same session id |
| Cookies.EdgeExactly | rp/src/middleware.ts:36-42 | The Edge check is the Node check and a signature of exactly 64 lower-case digits |
| Cookies.SignedIsAccepted | rp/src/lib/session/index.ts:9-14 | Both verifiers accept what was signed, for every id, dots included |
| Cookies.TrailingTextDivides | rp/src/lib/session/index.ts:28-32 | For every id and every dot-free text that cannot be read on, the signed cookie followed by it passes Node and fails Edge |
| Sealed.PartsComeBack | rp/src/lib/crypto.ts:29-42 | The stored text splits back into the iv, tag and ciphertext that were joined |
| Sealed.EncryptedForm | rp/src/lib/crypto.ts:16-30 | The stored text is iv, tag and ciphertext in this order, in hexadecimal, with colons between |
| Sealed.DecryptEncrypt | rp/src/lib/crypto.ts:16-53 | Decrypting undoes encrypting for every text, iv and good key; a bad key is refused by both |
| Sealed.BadFormatExactly | rp/src/lib/crypto.ts:35-38 | Exactly the texts without two colons are refused for their format |
| RpSessions.Sessions.CreateSession | rp/src/lib/db/queries/session.ts:18-37 | Inserts the row with both tokens encrypted, an empty refresh token as none; inserts nothing when encryption fails |
| RpSessions.Sessions.GetValidSession | rp/src/lib/db/queries/session.ts:40-61 | Nothing for an unknown, revoked or expired session (one is still good at its expiry instant), otherwise the row with both tokens decrypted |
| RpSessions.Sessions.RevokeSession | rp/src/lib/db/queries/session.ts:97-103 | Sets the revocation time unconditionally, on that row only |
| RpSessions.SealedAtRest | rp/src/lib/db/queries/session.ts:18-37 | At rest both tokens are sealed under their ivs, an empty refresh token is none, the ID token and the other columns are as given |
| RpSessions.TokensReadBack | rp/src/lib/db/queries/session.ts:18-103 | A created session reads back with the very tokens it was given after any later operations, exactly until one of them revokes it or it expires |
| Argon2.ParsePrinted | op/backend/internal/crypto/argon2id.go:41-69 | For all uint32 memory and time, uint8 threads, salts and hashes the printed string parses back to them |
| Argon2.ParseVariant | op/backend/internal/crypto/argon2id.go:41-69 | So does every variant in the parts the parser skips: the front, the version, and non-digit text after the parameters |
| Argon2.PrintIsInjective | op/backend/internal/crypto/argon2id.go:32-37 | Different parameters, salts or hashes print differently |
| Argon2.VerifiesAsCarried | op/backend/internal/crypto/argon2id.go:69-71 | A stored hash is checked under the parameters and key length it carries |
| Argon2.HashThenVerify | op/backend/internal/crypto/argon2id.go:24-72 | A password verifies against its own hash, and another against it exactly when both derive the same key |
| Argon2.PrintedForm | op/backend/internal/crypto/argon2id.go:35-40 | The printed text is `$argon2id$v=19$`, the parameters, the salt and the hash, separated by dollar signs |
| Argon2.HashedForm | op/backend/internal/crypto/argon2id.go:117-140 | A new hash carries m=65536,t=3,p=4, a salt of 16 bytes and a key of 32, derived from the password and that salt |
| Argon2.BadFormatExactly | op/backend/internal/crypto/argon2id.go:42-45 | Exactly the texts without five dollar signs are refused for their format |
| Argon2.DecodeEncode64 | op/backend/internal/crypto/argon2id.go:59-67 | Unpadded base64 reads back every byte string |
| Argon2.ScanPrintedCost | op/backend/internal/crypto/argon2id.go:54-57 | The scanner reads back all printed parameters, whatever non-digit text follows |
| Text.SplitJoin | rp/src/lib/crypto.ts:35 | Splitting undoes joining when no part contains the separator |

## Left out

- HTTP: form and query parsing, client_secret_basic, headers, cookies, redirects and their `state`, status codes, JSON. A `redirect_uri` that cannot be parsed as a URL after the code was stored is not distinguished.
- Database errors in serial steps: the serial model assumes every store call succeeds; failures of the token endpoint's calls are in the micro-step model.
- The other endpoints in the micro-step model: their writes happen there one by one with arbitrary arguments the database accepts, without their own program order, so what depends on that order (tenant coherence, counts, userinfo) is proved for serial runs only.
- In the micro-step model a client lookup and its password check are one step, as are a lookup with its preloaded rows, and a row's expiry is computed at its insert.
- Refreshed scope: the source does not limit it to the original scope (the comment at `op/backend/internal/oidc/token_refresh.go:86` is not enforced), and the model does not either. The refreshing client need not be the original one; the session is not checked at exchange.
- JWT time claims are whole seconds in the library; the model keeps nanoseconds, so a token's `exp` is not truncated.
- Real cryptography, key generation and its failures, encryption of private keys at rest, forgery.
- The unique index on ID-token jtis, the users' last-login time, password histories, refresh tokens' `reuse_detected_at` beyond being set.
- Create, read, update and delete of clients, users and redirect URIs: one event each that saves a row under the constraints listed above; listing and pagination; validators of codes and names, which are one Boolean input.
- Admin login and admin sessions, discovery metadata other than the issuer, the logout endpoints, the frontend, the relying party's login flow, `getSessionWithUser` (the same read with a join), cookie attributes.
- Hex.Decode: code units above 255 end the text; how a particular Node version reduces them to bytes is not modelled.
- Sealed.DecryptEncrypt: for texts without lone surrogates, which UTF-8 cannot carry.
- Argon2.VerifyPassword: argon2's panics on zero time, threads or key length are one error result; the timing of the comparison is not modelled.
