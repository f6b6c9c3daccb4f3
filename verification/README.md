# Verification of the Signet person server

Signet is a non-custodial AAuth person server. A person's root key signs two kinds of attestation: a
PersonServerAuthorization (PSA), which lets a server issue tokens for that person, and AgentGrants, which let an agent
act. Agents ask the server for tokens; small requests are approved by a click, large ones only by a fresh root
signature (a step-up). Resources verify what they are shown back to the root. This project models the whole of that
authority pipeline in Dafny 4.11 and proves what it guarantees over every run.

`dafny verify dfyconfig.toml` checks everything.

## What the model is

- `Server.dfy` is the person server as one transition system: any number of handler threads, each cut wherever the Go
  code takes a lock or reads a field that another handler may change, a clock that never runs backwards, and
  revocations at any moment. A handler's local variables are part of the state, so are the tokens handed out, and so is
  a flag that is set if a handler ever follows a nil pointer.
- `ConsentRuns.dfy` is the consent store alone, at the same grain: `ApproveElevated` is four steps (lookup, unlocked
  checks, write of the signature, transition).
- `ServerRuns.dfy` holds the inductive invariant and `ServerGuarantees.dfy` the theorems that follow from it about all
  runs. `ServerLogs.dfy` balances the mission logs against what happened, entry by entry; `ServerHistory.dfy` says when
  each attestation in force was checked; `ServerTimeline.dfy` ties every date to the server's clock and the order of the
  run; `ServerIsolation.dfy` says that tenants do not see each other.
- `ServerProgress.dfy` is the converse: what the server owes an agent that stays within its grants, it delivers.
  `ServerWitness.dfy` turns that against one gap: it mints tokens that no resource accepts.
- `Tenancy.dfy`, `Missions.dfy`, `Revocation.dfy`, `Consent.dfy`, `Tokens.dfy`, `Attest.dfy`, `Verification.dfy` hold
  the entities as values and the operations on them as functions, with their lemmas.
- `ConsentStore.dfy`, `TenancyStore.dfy`, and the classes `Log`, `MemoryRegistry`, `ReplayCache` and `PersonServer` are
  the same operations as the source writes them: objects on the heap whose fields are overwritten in place, loops, and
  early returns. Every method is proved against the value-level functions. `Handlers.dfy` shows that an uninterrupted
  handler, which is what a method of `PersonServer` is, is one of the runs of the transition system.
- `Eip712.dfy`, `Documents.dfy`, `Addresses.dfy`, `Json.dfy`, `JsonReader.dfy`, `RecordReader.dfy`, `Base64.dfy` and
  `Text.dfy` are the encodings under all of it. They are defined and proved injective or invertible, not assumed to be;
  every field is read back from the JSON member of its name, and every typed-data field stands where its type text
  declares it.
- `Crypto.dfy` lists the primitives (SHA-256, Keccak-256, secp256k1 recovery, Ed25519 verification) as functions about
  which nothing is assumed. Where a statement needs a hash to be injective, it says "equal, or here are two different
  byte strings with one hash", and both lie in named finite sets of strings the program really hashes. Where it needs
  signatures to be unforgeable, that is a hypothesis about the one signature concerned.

Hypotheses that appear in theorems, and why: reading back a JSON record that the server itself wrote yields that record
(`Tokens.Inverts`; `RecordReader.Reading` is such a set of readers, proved to be one, and the theorems hold for any
other); quoted texts can be told apart, where a statement says which key a thumbprint names (`Tokens.Readable`; JSON's
own quoting is proved to be such); ids and codes drawn at random do not repeat (in the transition system a handler that
draws a used one waits for another, since a repeated code would let a step-up be checked against the wrong root; the
heap methods file over what was there, as the source does); the first published key is the one that signs (`Published`).

## Where the code and its documents differ

The model follows the code. DESIGN.md:102-105 lists the scope and `step_up` among the things a verifier checks and
tokens.go:53-54 says verifiers recompute the step-up digest; `Verify` does neither, so the guarantee that large
payments are signed is a guarantee about issuing, and about verifying only as far as what is accepted was issued
(`AcceptedWasIssued`). DESIGN.md:90 calls a step-up present exactly for the elevated tier, which is proved of issued
tokens. tenants.go:108-111 speaks of re-binding an agent after revocation;
`Enroll` never re-binds, so bindings are permanent. psa.go:67-70 says verifiers check the agent's public key against
its thumbprint; nothing at enrolment does. So the server mints for grants where the two differ and no resource accepts
such a token: `MismatchedKeyIsRefused` for every issue, `MismatchedGrantMintsInVain` from every state, and
`SomeTokenIsNeverAccepted` as a concrete run from the start; `IssuedTokenIsAccepted` has the equality in its exact
condition. A limit whose nanoseconds wrap upwards below an hour does not bound a token's life, and only such a one
(`LimitRespectedExactly`); all of those are negative (`LifetimeBounded`), and no PSA with a negative one has a digest to
sign. The two packages normalize addresses differently: consent.go:253-256 also drops a `0X` behind a `0x`, so it accepts
a root text that psa.go:343-356 does not; on texts that are addresses both agree (`StepUpSignedExactly`).

## Model

| member | source | states |
|---|---|---|
| `ServerGuarantees.NoClickForSignature` | internal/consent/consent.go:150-242 | in every state of every interleaving an approved elevated request carries a 65-byte signature over the digest of that same request which recovers to the twenty bytes that the agent's bound root names; a routine request carries none |
| `ServerGuarantees.OneDecisionPerRequest` | internal/consent/consent.go:153-209 | in every server run a request is decided iff exactly one call succeeded, with that outcome, not after its deadline |
| `ServerGuarantees.LargePaymentsAreSigned` | internal/server/server.go:185-216 | each token is for one approved request's own agent, audience and amount; as numbers, the amount is within the cap of the PSA in force at mint time, and above its threshold the token shows the digest of that request and a signature over it of the account its root names; it shows one iff the request was elevated |
| `ServerGuarantees.StepUpServesOneRequest` | internal/consent/consent.go:72-114 | two tokens with one step-up digest are for the very same request, or a Keccak collision |
| `ServerGuarantees.OneRootPerAgent` | internal/server/server.go:170-216 | all tokens ever issued for one agent name the one root it is bound to in `sub` |
| `ServerGuarantees.NoLookupFails` | internal/server/server.go:185-188 | the two lookups whose ok flag `poll` ignores never fail, no nil pointer is ever followed, every stored request's agent has a tenant and a grant |
| `ServerGuarantees.BindingsArePermanent` | internal/store/tenants.go:112-124 | an agent's binding, once made, is the same in every later state |
| `ServerGuarantees.IndexesAlwaysAgree` | internal/store/tenants.go:57-133 | the four index invariants and the linked logs hold in every reachable state |
| `ServerLogs.EverythingIsLogged` | internal/server/server.go:154-272 | over any run, for every agent, root, kind and request id: the entries in the log plus the handlers whose next step appends one equal the tokens handed out (`token_issued`), the requests filed (`token_request`, one each) or the enrolments gone through (`agent_enrolled`), and are none for anything else; when no handler is under way the log alone does |
| `ServerLogs.StepKeepsBalanced` | internal/missions/missions.go:40-54 | every step of every handler keeps that equation of entries, pending appends and events, for every agent, root, kind and id |
| `ServerTimeline.RequestsAreJudged` | internal/server/server.go:145-152 | a stored request's mission is one the bound root granted its agent, its tier is the one read from the PSA the tenant held at an earlier instant, its claims read back whole, and an action of the run filed it, dated by the clock of that moment and open for six hundred seconds from then |
| `ServerTimeline.DecidedWithinTenMinutes` | internal/consent/consent.go:197-209 | whatever is approved or denied in a run was filed by an earlier action of it, and at most ten minutes of the clock lie between the two |
| `ServerTimeline.TokenTimeline` | internal/server/server.go:145-216 | every token's request was filed, then approved within ten minutes, then minted for, by three actions in this order, and its `iat` is the second of the last |
| `ServerTimeline.EntryIsDated` | internal/server/server.go:154-272 | every log entry is dated by the server's clock as it stood at an action of the run |
| `ServerHistory.InForceWasChecked` | internal/store/tenants.go:139-166 | in every reachable state each PSA in force and each grant held met every condition of its check at an earlier instant of the run: the registry of that instant, inside its window, and no revocation of its handle before it |
| `ServerHistory.MintedUnderChecked` | internal/server/server.go:196-216 | the same of the PSA and the grant of every token ever handed out |
| `ServerHistory.RevokedBeforeAdmissionNeverMints` | internal/server/server.go:95-107 | a token under a handle revoked in the first part of a run stands on a document that was checked within that part, so a handle revoked before admission never mints |
| `ServerIsolation.OthersAreInvisible` | internal/store/tenants.go:1-16 | over any run in which no handler acts for a root, that tenant's PSA, grants and whole log stay as they were, and so does the answer for each of its handles that is not itself revoked |
| `ServerIsolation.StepTouchesOwn` | internal/store/tenants.go:75-124 | a step changes a tenant only as a step of a handler that holds its root |
| `ServerIsolation.EnrollmentSeesOnlyBinding` | internal/store/tenants.go:112-124 | the one effect across tenants: an enrolment depends on its own tenant and on whether the agent is bound to another root |
| `ServerIsolation.OnboardingAndLoggingSeeOwn` | internal/store/tenants.go:75-86 | onboarding and logging leave a tenant that depends on that tenant alone |
| `ServerGuarantees.ExportsGrow` | internal/missions/missions.go:56-64 | every earlier export is, agent by agent, a prefix of every later one, on every server run |
| `ServerGuarantees.ExportedHeadCommits` | internal/missions/missions.go:40-64 | chains exported from any two runs, roots and agents with one head hash are equal entry by entry, or a SHA-256 collision among their texts |
| `ServerGuarantees.IssuedTokenIsRooted` | internal/server/server.go:196-216 | the root in an issued token's `sub` signed the PSA and the grant it stands on, for this issuer, key and agent; `cnf`, `mission` and `ag_s256` are the grant's, `psa` is the address and the hash of the PSA, `dwk` names the metadata document |
| `ServerGuarantees.IssuedTokenIsShortLived` | internal/tokens/tokens.go:131-161 | a token is dated by the second of its minting and lives exactly for its PSA's limit or an hour, whichever is less, as long as the limit does not overflow; never longer in any case |
| `ServerGuarantees.IssuedGrantStaysResolvable` | internal/store/tenants.go:126-133 | every `ag_s256` ever issued resolves in every later state, to the grant it was minted from or to a SHA-256 collision |
| `ServerGuarantees.IssuedTokenIsAccepted` | cmd/resd/main.go:102-203 | a presentation of a token issued in any reachable state, to a resource reading the server's published pages, is accepted iff its PSA is still the published one, it is the first of its jti, at its audience, in time, by the holder of the granted key whose public half the grant carries, with both attestations in their windows and unrevoked; then with exactly its claims, and the request's key is the one in `cnf` or collides with it; or a published document collides with the pinned one |
| `ServerGuarantees.AcceptedWasIssued` | internal/tokens/tokens.go:222-255 | if the signature presented is not forged, whatever any resource accepts under the server's key has exactly the claims of a token that the server minted for an approved request |
| `ServerGuarantees.AcceptedWasInOrder` | cmd/resd/main.go:102-203 | whoever serves the pages: what was checked when an issued token is accepted holds and is what the token pins, or collides with it |
| `ServerGuarantees.MismatchedKeyIsRefused` | internal/attest/psa.go:67-70 | a token under a grant whose public key is not the one its thumbprint names is refused in every presentation, whoever serves the pages and whatever the registry says, unless the served grant collides |
| `ServerWitness.MismatchedGrantMintsInVain` | internal/server/server.go:249-275 | from every state between handlers, such a grant is enrolled and minted from, and the token is never accepted |
| `ServerWitness.SomeTokenIsNeverAccepted` | internal/server/server.go:249-275 | a concrete run from the start of any server, for any root address, mission hash and pair of mismatched keys, ends with such a token |
| `ServerProgress.RequestWithinGetsItsToken` | internal/server/server.go:95-245 | from every state the invariant allows between handlers, verified attestations and a request within the envelope lead to one more token, for that agent and resource, once the request has a click or, if elevated, the root's signature over its digest; it carries a step-up iff elevated |
| `ServerProgress.AfterConsent` | internal/consent/consent.go:153-242 | in time, a click approves a pending routine request, and a pending elevated one is approved by a signature that recovers to the account its root names |
| `ServerProgress.AfterPoll` | internal/server/server.go:185-216 | an approved request within the envelope is answered with a token on the PSA and grant now held |
| `ServerGuarantees.RevokedByRun` | internal/store/registry.go:21-33 | after any run exactly the handles revoked in it or before it are refused |
| `ServerGuarantees.RevocationIsFinal` | internal/attest/psa.go:228-235 | after a revocation nothing on that handle verifies at any later state, at any time, for anyone |
| `ServerGuarantees.RevocationEndsAcceptance` | internal/tokens/tokens.go:222-255 | exit rights (I2): after a revocation in a run no verifier reading that registry accepts a key-rooted token whose PSA or grant, as it resolves them, is on that handle |
| `ServerRuns.StepKeepsInv` | internal/server/server.go:95-275 | every step of every handler keeps the invariant of stores, handlers' locals and issued tokens, and takes nothing away |
| `ServerRuns.RunKeepsInv` | internal/server/server.go:95-275 | the same over whole runs |
| `ServerRuns.OnboardKeepsInv` | internal/server/server.go:95-107 | admitting a PSA that verified some time ago keeps the invariant |
| `ServerRuns.EnrollKeepsInv` | internal/server/server.go:249-275 | enrolling a grant that verified some time ago keeps the invariant |
| `ServerRuns.RequestKeepsInv` | internal/server/server.go:145-154 | filing a request keeps it; the kept claims read back as the fields the digest covers |
| `ServerRuns.PageKeepsInv` | internal/server/approve.go:16-45 | a visit of the approval page keeps it |
| `ServerRuns.StepUpCallKeepsInv` | internal/server/server.go:221-245 | a step-up call keeps it: the root it is called with is the one bound to the request's agent |
| `ServerRuns.TierReadKeepsInv` | internal/server/server.go:145 | the tier of a request is judged under a PSA its root signed |
| `ServerRuns.TenantLookupKeepsInv` | internal/server/server.go:186 | the unchecked tenant lookup of `poll` finds the bound tenant |
| `ServerRuns.GrantLookupKeepsInv` | internal/server/server.go:187 | the unchecked grant lookup of `poll` finds a vetted grant |
| `ServerRuns.SignatureReadKeepsInv` | internal/server/server.go:197-201 | what `finish` reads of the stored signature makes the right step-up claim |
| `ServerRuns.MintKeepsInv` | internal/server/server.go:202-214 | the token that `finish` hands out is in order, whichever PSA is in force by then |
| `ServerRuns.StoredSignatureShows` | internal/server/server.go:197-201 | the step-up claim built from an approved request shows its root's signature iff the request is elevated |
| `ServerRuns.BoundHasTenant` | internal/store/tenants.go:96-106 | a bound agent resolves to its root's tenant, which holds a grant for it |
| `ServerRuns.NewTermsAreFiled` | internal/server/helpers.go:84-95 | the claims marshalled at request creation read back as the request's resource, amount and scope |
| `Server.ResourceTokenIsRead` | internal/server/helpers.go:65-84 | the claims a resource token was made from are read back, unless they name no resource |
| `ServerRuns.OnboardCheckVets` | internal/store/tenants.go:139-152 | a PSA that passes onboarding meets every condition of the check for one of this server's keys: signature, issuer, window and an unrevoked handle |
| `Handlers.AloneIsARun` | internal/server/server.go:95-275 | a handler that nothing interrupts is a run of the transition system |
| `Handlers.AloneStaysResolvable` | internal/server/server.go:170-216 | what the class needs for its unchecked lookups holds before and after every uninterrupted handler |
| `Handlers.AloneOnboard` | internal/server/server.go:95-107 | the steps of an uninterrupted onboarding add up to check and admission |
| `Handlers.AloneEnroll` | internal/server/server.go:249-275 | the steps of an uninterrupted enrolment add up to `Enrolled` |
| `Handlers.AloneToken` | internal/server/server.go:110-168 | the steps of an uninterrupted token call add up to `Requested`; with a drawn id or code that is in use the handler waits for another draw |
| `Handlers.AlonePoll` | internal/server/server.go:170-216 | the steps of an uninterrupted poll add up to the store's poll and `finish` |
| `Handlers.AlonePage` | internal/server/approve.go:16-45 | the approval page approves a routine request and leaves an elevated one as it was |
| `Handlers.AloneStepUp` | internal/server/server.go:221-245 | a posted signature ends in the store's step-up call under the agent's root |
| `Handlers.CalledExactly` | internal/consent/consent.go:153-209 | a store call made by an uninterrupted handler has its sequential effect |
| `PersonServer.CollectKeyThumbs` | internal/server/server.go:323-329 | the loop over the issuer keys yields their thumbprints in order, each naming that key alone, or one that collides with it |
| `PersonServer.PersonServer.constructor` | internal/server/server.go:52-59 | a new server has empty stores and nothing revoked |
| `PersonServer.PersonServer.Onboard` | internal/server/server.go:95-107 | onboarding on the heap: refused exactly when the check fails, else the tenancy store as `Tenancy.Onboard` leaves it |
| `PersonServer.PersonServer.ServePSA` | internal/server/server.go:277-284 | the page of a root shows the PSA its tenant holds now |
| `PersonServer.PersonServer.ServeGrant` | internal/server/server.go:286-296 | the page of a content hash shows a grant only if it has that hash |
| `PersonServer.PersonServer.Export` | internal/server/server.go:298-313 | a root's bundle is that tenant's PSA and whole log, and there is one exactly for tenants |
| `PersonServer.PersonServer.EnrollAgent` | internal/server/server.go:249-275 | enrolment on the heap leaves the tenancy store as `Handlers.Enrolled` says, and succeeds exactly when the root is onboarded, the grant verifies and the agent is not bound elsewhere |
| `PersonServer.PersonServer.CheckRequest` | internal/server/server.go:110-151 | the guards of a token call yield the terms to file, dated now and open for ten minutes, or none |
| `PersonServer.PersonServer.Token` | internal/server/server.go:110-168 | a token call on the heap files one pending request of that agent, dated now and open for ten minutes, over whatever the drawn id and code named, and logs it, or changes nothing |
| `PersonServer.PersonServer.FileRequest` | internal/server/server.go:146-154 | filing adds one pending entry, its code and a log entry |
| `PersonServer.PersonServer.ApprovePage` | internal/server/approve.go:16-45 | the page's effect and answer, by tier |
| `PersonServer.PersonServer.RootAtCode` | internal/server/server.go:223-236 | the root under which a posted signature is checked is that of the requesting agent's tenant |
| `PersonServer.PersonServer.ApproveElevated` | internal/server/server.go:221-245 | the step-up handler's effect and answer, including the unknown code and the missing tenant; where it succeeds, the account that the tenant's root names signed the digest of that request |
| `PersonServer.PersonServer.Finish` | internal/server/server.go:196-216 | for any grant the caller holds, a token is returned exactly when Mint agrees, it is the signed issue, and the log grows by one entry |
| `PersonServer.PersonServer.FinishApproved` | internal/server/server.go:185-188 | the same after the two unchecked lookups |
| `PersonServer.PersonServer.FindOwn` | internal/server/server.go:176-180 | the store's poll, and nothing for another agent's request |
| `PersonServer.PersonServer.Poll` | internal/server/server.go:170-194 | state, token and stores after a poll, in all cases: a pending request past its deadline shows as expired, any other as it is stored; that the agent of its own request resolves follows from what the class keeps |
| `ConsentRuns.AtMostOneDecision` | internal/consent/consent.go:153-209 | over all interleavings at most one successful call per request, approved or denied iff one succeeded, never after the deadline |
| `ConsentRuns.TerminalStatesStay` | internal/consent/consent.go:197-209 | a state other than pending never changes again |
| `ConsentRuns.PollingHasNoInfluence` | internal/consent/consent.go:116-148 | erasing every poll from any run leaves each call's success, every signature and every effective state as they were |
| `ConsentRuns.StepKeepsSigned` | internal/consent/consent.go:164-187 | each lock section keeps "what is stored is the bound root's step-up" under any interleaving |
| `ConsentRuns.StepKeepsDecided` | internal/consent/consent.go:197-209 | each lock section keeps "one decision per request, in time" |
| `ConsentRuns.StepKeepsIndex` | internal/consent/consent.go:129-135 | each step keeps codes, ids and held requests consistent |
| `ConsentRuns.StepPersists` | internal/consent/consent.go:119-209 | no step removes a request, changes its terms or reopens a decided one |
| `ConsentRuns.SignedUnderMore` | internal/store/tenants.go:112-124 | new bindings do not disturb the signatures stored under earlier ones |
| `ConsentRuns.WriteKeepsSigned` | internal/consent/consent.go:183-185 | the separate write of the signature, even over an earlier one, stores a verified step-up |
| `ConsentStore.UninterruptedCall` | internal/consent/consent.go:153-209 | the lock sections of one uninterrupted call compose to its sequential form |
| `Consent.StepUpExactly` | internal/consent/consent.go:164-187 | for a root that is an address, a step-up passes exactly if the request is elevated and the signature recovers over its digest to those twenty bytes |
| `Consent.RootSignedExactly` | internal/consent/consent.go:225-256 | for every root text: the signer is the account whose forty digits, in any casing, stand in it behind the prefixes this package drops |
| `Consent.StepUpSignedExactly` | internal/consent/consent.go:225-256 | on addresses this check and that of the attestations agree |
| `Consent.PolledExactly` | internal/consent/consent.go:137-148 | exactly pending requests past their deadline become expired, and that is the state an observer should see |
| `Consent.ApprovalIsLaidOut` | internal/consent/consent.go:76-105 | each field of the approval stands where the type text declares its type and name |
| `ConsentStore.VerifyEOASig` | internal/consent/consent.go:225-242 | the check on a copy of the signature accepts exactly the root's account |
| `ConsentStore.Store.constructor` | internal/consent/consent.go:125-127 | a new store is empty |
| `ConsentStore.Store.Create` | internal/consent/consent.go:129-135 | files the request as pending under id and code, over whatever was there |
| `ConsentStore.Store.Poll` | internal/consent/consent.go:137-148 | marks a late pending request expired, changes nothing else |
| `ConsentStore.Store.ByCode` | internal/consent/consent.go:213-223 | resolves a code to the stored request |
| `ConsentStore.Store.Transit` | internal/consent/consent.go:197-209 | the locked transition, with its two errors |
| `ConsentStore.Store.ApproveRoutine` | internal/consent/consent.go:153-162 | whole effect and error of a click |
| `ConsentStore.Store.CheckStepUp` | internal/consent/consent.go:171-182 | the unlocked checks, in order; for a root that is an address they pass exactly if the request is elevated and that account signed its digest |
| `ConsentStore.Store.ApproveElevated` | internal/consent/consent.go:166-187 | whole effect and error of a step-up, including the signature left behind by a call that then fails; a call succeeds only with the signature of the account the root names |
| `ConsentStore.Store.Deny` | internal/consent/consent.go:189-195 | whole effect and error of a denial |
| `Tenancy.OnboardKeepsConsistent` | internal/store/tenants.go:75-86 | onboarding keeps every index right and loses nothing |
| `Tenancy.ReOnboardingChangesOnePSA` | internal/store/tenants.go:78-83 | re-onboarding replaces one PSA and changes nothing else |
| `Tenancy.EnrollKeepsConsistent` | internal/store/tenants.go:112-124 | enrolment keeps `byAgent` and the grant maps two views of one relation, grants named and findable by hash |
| `Tenancy.EnrollBinds` | internal/store/tenants.go:112-124 | enrolment adds one pair to the relation of roots and agents, and an agent is held by one root only |
| `Tenancy.LogKeepsConsistent` | internal/missions/missions.go:40-54 | logging with no caller-supplied `Prev` keeps the store consistent and only grows one log |
| `Tenancy.GrantStaysResolvable` | internal/store/tenants.go:126-133 | a hash that resolved keeps resolving to the same grant or to a collision |
| `TenancyStore.Tenant.constructor` | internal/store/tenants.go:35-37 | a new tenant has its PSA's root, no grants and an empty log |
| `TenancyStore.FirstCoveredKey` | internal/store/tenants.go:140-146 | the loop finds the first of the server's thumbprints that the PSA covers |
| `TenancyStore.CheckOnboarding` | internal/store/tenants.go:139-152 | the checking half of the ceremony |
| `TenancyStore.Tenants.constructor` | internal/store/tenants.go:64-70 | a new registry is empty |
| `TenancyStore.Tenants.Onboard` | internal/store/tenants.go:75-86 | admission on the heap, of the filed object too: a known root's PSA is overwritten in place, the candidate dropped |
| `TenancyStore.Tenants.ByRoot` | internal/store/tenants.go:88-93 | lookup by root |
| `TenancyStore.Tenants.ByAgent` | internal/store/tenants.go:96-106 | lookup by agent, nil when unbound |
| `TenancyStore.Tenants.Enroll` | internal/store/tenants.go:112-124 | enrolment on the heap, refused exactly when the agent is bound to another root; a tenant that is not filed here changes unseen while both indexes are written |
| `TenancyStore.Tenants.EnrollAndLog` | internal/server/server.go:268-272 | an enrolment that is not refused is logged in the tenant's own log |
| `TenancyStore.Tenants.AppendToLog` | internal/missions/missions.go:40-54 | appending to one tenant's log changes that tenant's value only |
| `TenancyStore.Tenants.GrantByS256` | internal/store/tenants.go:126-133 | in consistent indexes what is found under a hash has that hash, and every grant a tenant holds is found under its own, as itself or as one that collides with it |
| `TenancyStore.Tenants.VerifyAndOnboard` | internal/store/tenants.go:139-166 | the ceremony, returning the tenant that is filed and not the candidate |
| `TenancyStore.Tenants.Admit` | internal/store/tenants.go:153-165 | its second half |
| `Missions.HeadCommits` | internal/missions/missions.go:40-54 | two linked chains with one last hash are the same chain, or a SHA-256 collision among the texts hashed into them |
| `Missions.AppendKeepsLinked` | internal/missions/missions.go:40-54 | appending keeps a chain linked |
| `Missions.CallerPrevBreaksCommitment` | internal/missions/missions.go:44-46 | a first entry's caller-supplied `Prev` is kept, and then chains of different length share a head |
| `Missions.AppendGrows` | internal/missions/missions.go:40-64 | an append extends one agent's chain and no other |
| `Missions.Log.Append` | internal/missions/missions.go:40-54 | the in-place append is the value-level one |
| `Missions.Log.Export` | internal/missions/missions.go:56-64 | the copying loop returns every chain whole |
| `Revocation.KeyInjective` | internal/store/registry.go:33 | no two handles share a key, even where a root contains `#` |
| `Revocation.RevokesOneHandle` | internal/store/registry.go:21-31 | revoking changes the answer for that handle and no other |
| `Revocation.RevokedExactly` | internal/store/registry.go:21-31 | a sequence of revocations refuses exactly the handles in it |
| `Revocation.RevokedNeverVerifies` | internal/attest/psa.go:228-269 | nothing on a revoked handle is accepted |
| `Revocation.UnreadableNeverVerifies` | internal/attest/psa.go:228-269 | a registry error is never an acceptance |
| `Revocation.MemoryRegistry.RevokeHandle` | internal/store/registry.go:21-25 | adds exactly that key |
| `Revocation.MemoryRegistry.IsRevoked` | internal/store/registry.go:27-31 | answers by root and nonce only, and always answers |
| `Documents.DigestsBind` | internal/attest/psa.go:97-179 | PSAs, grants and approvals with one digest are of one kind and agree on every covered field, chain and registry (up to hex casing, numeric value and whole seconds), or a Keccak collision |
| `Eip712.EncodingBinds` | internal/attest/psa.go:322-330 | equal struct encodings of one type mean the same, or a collision among the inputs |
| `Eip712.TypesSeparate` | internal/attest/psa.go:106-135 | structs of different types never share an encoding, or a collision |
| `Eip712.DigestIsFramed` | internal/attest/psa.go:322-330 | a digest is the hash of 0x19, 0x01, the domain's encoding and the message's |
| `Eip712.WordsAreNumbers` | internal/attest/psa.go:139-160 | numbers and addresses are encoded as the 32 bytes that write them big-endian |
| `Eip712.UintWordExactly` | internal/attest/psa.go:139-160 | exactly the numbers of 256 bits have an encoding |
| `Eip712.NumbersAreRead` | internal/attest/psa.go:149-156 | every integer is read from its decimal text, and behind a 0x from the hexadecimal text of its bytes |
| `Addresses.AddressTextNames` | internal/attest/psa.go:275-298 | the checksummed text of an account is an address text that names its twenty bytes |
| `Addresses.HexDecodeExactly` | internal/attest/psa.go:343-356 | a text decodes to some bytes exactly if it is their hexadecimal form in some casing |
| `Attest.VerifyPSAExactly` | internal/attest/psa.go:208-236 | acceptance of a PSA, condition by condition, both ways |
| `Attest.VerifyAgentGrantExactly` | internal/attest/psa.go:241-270 | acceptance of a grant, condition by condition, both ways |
| `Attest.DigestChecksFields` | internal/attest/psa.go:139-160 | a PSA with a digest names a real address and a limit that is not negative |
| `Attest.NormalizeHexInPlace` | internal/attest/psa.go:343-356 | the byte loop computes the normal form |
| `Attest.VerifyRootSig` | internal/attest/psa.go:275-298 | the check without a contract verifier accepts exactly signatures that recover to the account the root's text names, and leaves the caller's bytes alone |
| `Attest.RootSignedExactly` | internal/attest/psa.go:275-356 | for every root text: a signature verifies exactly if it is 65 bytes and recovers, its last byte counted from 0 or from 27, to the twenty bytes the text names in any casing |
| `Attest.PsaIsLaidOut` | internal/attest/psa.go:97-160 | each field of a PSA stands where the type text declares its type and name |
| `Attest.ScopeIsLaidOut` | internal/attest/psa.go:106-160 | the same for the scope inside it |
| `Attest.GrantIsLaidOut` | internal/attest/psa.go:123-183 | the same for a grant |
| `Attest.DomainIsLaidOut` | internal/attest/psa.go:97-115 | the same for the domain |
| `Attest.AmountIsNumber` | internal/attest/psa.go:358-363 | an amount is signed as the number its text denotes, none as zero |
| `Attest.GrantHashPins` | internal/attest/psa.go:304-313 | equal content hashes are of one grant, signature included, or a SHA-256 collision |
| `Attest.HashIsRead` | internal/attest/psa.go:304-313 | a content hash is the hexadecimal text of the SHA-256 hash of the JSON text |
| `Attest.PsaHashPins` | internal/attest/psa.go:304-313 | the same for PSAs |
| `Tokens.TierAgreesWithEnvelope` | internal/server/helpers.go:40-50 | within a cap that is not zero, Mint wants a step-up exactly for the elevated tier, which is that of amounts above a positive threshold, and with one never refuses |
| `Tokens.EnvelopeExactly` | internal/tokens/tokens.go:173-189 | on the numbers of amount, threshold and cap: exactly which payments pass, and how the others are refused |
| `Tokens.TierExactly` | internal/server/helpers.go:40-50 | a payment is elevated exactly if there is a threshold and its amount is above it |
| `Tokens.DecimalEnvelope` | internal/tokens/tokens.go:173-189 | the same where amount, threshold and cap are written as natural numbers |
| `Tokens.EnvelopeDownwardClosed` | internal/tokens/tokens.go:173-189 | a smaller amount passes wherever a larger one does |
| `Tokens.LifetimeBounded` | internal/tokens/tokens.go:131-137 | with int64 wrap-around, every limit, clock and request: never over an hour, never over the limit where that holds, as it does for every limit that is not negative, and exactly the request when it is whole seconds under both |
| `Tokens.LimitRespectedExactly` | internal/tokens/tokens.go:131-137 | exactly the limits whose nanoseconds do not wrap upwards, or are an hour or more, are respected by every request at every instant |
| `Tokens.LifetimeExactly` | internal/tokens/tokens.go:131-137 | a token lives exactly for the least of request, limit and an hour, in whole seconds, as long as the limit does not wrap |
| `Tokens.Int64Exactly` | internal/tokens/tokens.go:132 | the wrapped product is the int64 that differs from it by whole turns |
| `Tokens.NegativeLimitWraps` | internal/tokens/tokens.go:132 | a concrete int64 limit that is exceeded |
| `Tokens.CompactRoundTrip` | internal/tokens/helpers.go:14-33 | splitting a compact token gives back its three segments and decoding each its bytes |
| `Tokens.Split3Exactly` | internal/tokens/helpers.go:17-24 | a token splits into three segments exactly if it is their text with two dots between and they hold none |
| `Tokens.SignedTextIsWhole` | internal/tokens/tokens.go:306-315 | what is signed is the bytes of the token up to its last dot: both segments |
| `Tokens.SigningInputPins` | internal/tokens/tokens.go:312-343 | the signed bytes tell header and claims segment |
| `Tokens.ThumbprintPins` | internal/tokens/tokens.go:41-47 | equal thumbprints are of one key, member by member, or a SHA-256 collision of their texts |
| `Tokens.ThumbprintIsCanonical` | internal/tokens/tokens.go:41-47 | the hashed text is that of RFC 7638: crv, kty and x, in this order |
| `Tokens.JsonQuotingIsReadable` | internal/tokens/tokens.go:43-47 | quoting as JSON does leaves no two strings, nor their ends, indistinguishable, so the hypothesis about quoted members can be met |
| `Tokens.SubExactly` | internal/tokens/tokens.go:236-238 | the sub check accepts exactly the PSA's chain and root, in any casing |
| `Tokens.SubTellsRootsApart` | internal/tokens/tokens.go:236-238 | of the subs that this server writes it accepts those of the same chain and account only |
| `Tokens.SplitRefInvertsRef` | cmd/resd/main.go:233-243 | a reference splits into its URL and hash for every URL without `#` |
| `Tokens.SplitRefStepwise` | cmd/resd/main.go:233-243 | the step-by-step form computes the same split, for every text |
| `Tokens.AllAllowed` | internal/tokens/tokens.go:138-142 | the loop accepts exactly claim names the scope allows |
| `Tokens.ApplyVouched` | internal/tokens/helpers.go:63-75 | the loop over the map, in any order, sets exactly the three known claims |
| `Tokens.ClampStepwise` | internal/tokens/tokens.go:131-137 | the two clamps compute the limit |
| `Tokens.BuildClaims` | internal/tokens/tokens.go:157-168 | the claims that are signed |
| `Tokens.Mint` | internal/tokens/tokens.go:127-171 | token or refusal, refusals in order |
| `Verification.AcceptedTokenIsRooted` | internal/tokens/tokens.go:222-255 | soundness (I1): the account that an accepted key-rooted token's `sub` names, with its chain and up to casing, signed a live PSA for that issuer and signing key and a live grant for that agent; the key in `cnf` is the granted key itself, and the issuer's the covered one, or they collide |
| `Verification.AcceptedTokenWasSigned` | internal/tokens/tokens.go:317-347 | an accepted token has exactly the header and claims of one that the issuer's key signed, unless the signature presented is forged |
| `Verification.SignatureValidExactly` | internal/tokens/tokens.go:340-343 | the signature that is checked is over the bytes of the token up to its last dot |
| `Verification.VerifyExactly` | internal/tokens/tokens.go:222-294 | exactly which presentations are accepted, with which claims: signed as a whole by the issuer's key, presented to its audience, in time, at most a day, by the holder, for the first time, and with a chain that holds if there is a PSA |
| `Verification.Layer1Exactly` | internal/tokens/tokens.go:269-294 | exactly which presentations pass the stateless checks |
| `Verification.MintedTokenIsAccepted` | internal/tokens/tokens.go:127-171 | completeness: what Mint returns is accepted with exactly the minted claims |
| `Verification.MintedTokenParses` | internal/tokens/tokens.go:306-347 | a minted token is signed as a whole and read as the claims that were minted |
| `Verification.FetchedPsaIsPinned` | cmd/resd/main.go:172-188 | a PSA served for a pinned reference is the pinned one or collides with it |
| `Verification.FirstPassingPresentationWins` | internal/tokens/tokens.go:284-292 | over any sequence of presentations, exactly the first passing one per jti is accepted and the cache holds exactly the passing jtis |
| `Verification.CacheHoldsPassing` | cmd/resd/main.go:214-229 | a presentation that fails a stateless check leaves no trace |
| `Verification.ReplayCache.SeenJTI` | cmd/resd/main.go:221-229 | tests and records in one step |
| `Verification.VerifyLayer1` | internal/tokens/tokens.go:269-294 | the method refines the functional Layer 1, cache included |
| `Verification.VerifyToken` | internal/tokens/tokens.go:222-255 | the method refines the functional Verify; a Layer 2 failure has spent the jti |
| `Verification.Whoami` | cmd/resd/main.go:115-126 | the resource's decision in both modes, and the replay cache it leaves |
| `Verification.KeyRootingOnlyRefuses` | cmd/resd/main.go:115-126 | requiring key-rooting accepts only what the other mode would, of that exactly the key-rooted tokens whose chain holds, and leaves the same cache |
| `Verification.VanillaExactly` | internal/tokens/tokens.go:257-268 | exactly which presentations a resource without the requirement accepts, and what its cache then holds |
| `Base64.RoundTrip` | internal/tokens/helpers.go:14-33 | decoding inverts encoding in both alphabets |
| `Base64.PaddedInjective` | internal/attest/psa.go:304-313 | the padded form in which JSON writes bytes tells all byte strings apart |
| `Json.MarshalInjective` | internal/attest/psa.go:304-313 | different values have different texts |
| `Json.TextIsHarmless` | internal/attest/psa.go:304-313 | no written JSON text holds a control character, an angle bracket, an ampersand or a line separator, whatever the strings in it hold |
| `Json.OrdinaryIsVerbatim` | internal/attest/psa.go:304-313 | a string without those, quotes and backslashes is written as it is |
| `JsonReader.UnmarshalInverts` | internal/attest/psa.go:304-313 | reading a written JSON text gives back the value |
| `RecordReader.ReadingInverts` | internal/tokens/tokens.go:306-333 | readers that take every field from the member of its name read back whatever was written, so all theorems apply to them |
| `RecordReader.ClaimsAreRead` | internal/tokens/tokens.go:62-84 | every claim is written under its name and read from there, optional ones included |
| `RecordReader.ClaimsAreNamed` | internal/tokens/tokens.go:62-84 | which members a claim set has, by name |
| `RecordReader.ResourceClaimsAreRead` | internal/tokens/tokens.go:91-100 | the same for resource claims |
| `RecordReader.PsaIsRead` | internal/attest/psa.go:38-60 | a PSA's JSON holds each field under its name, signature bytes included |
| `RecordReader.GrantIsRead` | internal/attest/psa.go:61-82 | the same for a grant, whose public key is left out when empty |
| `RecordReader.HashedEntryIsRead` | internal/missions/missions.go:40-54 | what a log entry's hash is taken of names its kind, request, previous hash and date |
| `Base64.PaddedRoundTrip` | internal/attest/psa.go:304-313 | padded base64 decodes to its bytes |
| `Json.StringsInjective` | internal/attest/psa.go:317-320 | string lists are told apart, nil from empty included |
| `Text.HexInjective` | internal/attest/psa.go:304-313 | hex texts tell byte strings apart |
| `Text.Utf8Injective` | internal/attest/psa.go:304-313 | UTF-8 tells strings apart |
| `Text.SetStringOfShowInt` | internal/attest/psa.go:149-156 | a number's decimal text reads back as that number |
| `Basics.Contains` | internal/tokens/helpers.go:77-84 | the search loop decides membership |

## Left out

- HTTP: routes, status codes, headers, bodies, path unescaping and request parsing; a request enters the model as its decoded content.
- Request authentication (RFC 9421, SIWE, `internal/server/dev.go`): its result, thumbprint and agent id, is an input.
- Cryptography: curve arithmetic, hashing and randomness are parameters; nothing is assumed of the first two.
- ERC-1271 account signatures and `BaseRegistry`: external calls, the latter unimplemented.
- JSON reading in general: the readers here take the compact form that Marshal writes, without white space, fractions or duplicate members; strings are sequences of Unicode characters.
- strconv.Quote and the RFC 3339 text of an instant: parameters, since the thumbprint and the log hash see only their results.
- go-ethereum's typed data and address texts: modelled from EIP-712, EIP-55 and that library's documented text forms of numbers, addresses and bytes, as its source is not part of this repository.
- int64 ranges: instants, windows and nonces are unbounded integers, except where a duration is multiplied and may wrap.
- Case folding outside ASCII in `caipEq` and `ToLower`: hexadecimal addresses and the `eip155` prefix have none.
- Data races: an unlocked read of `Tenant.PSA`, `Request.State` or `Request.StepUpSig` is one step.
- `Enroll` is one step although `PutGrant` takes a lock of its own inside it, so a reader between the two is not modelled; the lookups by agent and by hash wait for the outer lock.
- The two clock readings of `token` (created, expires) are one.
- `AutoApprovable` is the constant false it is in the source, so the branch that approves without a click is not modelled; `Consistent` is its one check, that a mission is bound.
- Deny: the store's operation is modelled and may be called at any moment, though no handler calls it yet.
- One token per consent: not claimed, for an approved request mints again on every poll.
- Freshness at mint: not claimed, for `finish` does not look at windows or revocation again.
- Mixed-case roots: differently cased texts of one address are different tenants and different revocation handles, as in the source.
- The replay cache of another process, and eviction from it: the source never evicts.
- metadata and jwks: they only read; what they serve is `Published`. The root's challenge before an export is an input.
- SuccessorStatement, rotation and recovery: reserved types without logic.
- cmd/psd, cmd/devtool, demo and the test fixtures.
- Verification of `step_up`: no verifier looks at it, so there is nothing to model on that side.
- Other revocation registries: a registry that forgets would not make revocation final; the in-memory one never does.
