// What the person server guarantees over whole runs: any number of handlers, interleaved at every lock and field
// read, with the clock advancing and handles being revoked in between.
module ServerGuarantees {
  import opened Attest
  import opened Basics
  import opened Consent
  import Runs = ConsentRuns
  import opened Crypto
  import Documents
  import Eip712
  import Json
  import Missions
  import Revocation
  import opened Server
  import opened ServerRuns
  import Tenancy
  import opened Text
  import opened Tokens
  import Verification

  /** Every state a run can reach from the start of the server. */
  function Reached(cfg: Config, now: int, actions: seq<Action>): System {
    Run(cfg, Boot(now), actions)
  }

  lemma ReachedHoldsInv(cfg: Config, now: int, actions: seq<Action>)
    requires Inverts(cfg.codec)
    ensures Inv(cfg, Reached(cfg, now, actions))
  {
    BootHoldsInv(cfg, now);
    RunKeepsInv(cfg, Boot(now), actions);
  }

  lemma IssueAt(cfg: Config, s: System, k: nat)
    requires Inv(cfg, s) && k < |s.issued|
    ensures IssueOk(cfg, s.store, s.tenants, s.issued[k])
  {
  }

  // ---------------------------------------------------------------- consent

  /**
   * No click stands in for a signature: an approved elevated request carries a signature over the approval digest of
   * that very request by the account which the root that its agent is bound to names, and a routine request never
   * carries one.
   */
  lemma NoClickForSignature(cfg: Config, now: int, actions: seq<Action>, id: string)
    requires Inverts(cfg.codec) && id in Reached(cfg, now, actions).store.byID
    ensures var s := Reached(cfg, now, actions);
      var e := s.store.byID[id];
      && (e.terms.tier == Elevated && e.state == Approved ==>
            && e.terms.agentID in s.tenants.byAgent
            && StepUpSigned(cfg.consent.c, cfg.consent.chainID, cfg.consent.registry, e.terms,
                 s.tenants.byAgent[e.terms.agentID], e.stepUpSig))
      && (e.terms.tier == Routine ==> e.stepUpSig == [])
  {
    ReachedHoldsInv(cfg, now, actions);
    var s := Reached(cfg, now, actions);
    var e := s.store.byID[id];
    assert Runs.EntrySigned(cfg.consent, s.tenants.byAgent, e);
    if e.terms.tier == Elevated && e.state == Approved {
      BoundRootIsAddress(cfg, s, e.terms.agentID);
      StepUpExactly(cfg.consent.c, cfg.consent.chainID, cfg.consent.registry, e.terms,
        s.tenants.byAgent[e.terms.agentID], e.stepUpSig);
    }
  }

  lemma BoundRootIsAddress(cfg: Config, s: System, agent: string)
    requires Inv(cfg, s) && agent in s.tenants.byAgent
    ensures Eip712.AddressBytes(s.tenants.byAgent[agent]).Some?
  {
    var root := s.tenants.byAgent[agent];
    BoundHasTenant(s.tenants, agent, root);
    BoundIsVetted(cfg, s.tenants, agent, root);
    DigestChecksFields(cfg.consent.c, s.tenants.byRoot[root].psa);
  }

  /** A request's decision and the calls that succeeded on it. */
  ghost predicate DecidedOnce(s: Runs.Store, id: string)
    requires id in s.byID
  {
    && (s.byID[id].state in {Approved, Denied} <==> Runs.HasGrant(s.outcomes, id))
    && (forall i, j :: 0 <= i < j < |s.outcomes| ==> !Runs.SameRequest(s.outcomes[i].1, s.outcomes[j].1))
    && (forall i :: 0 <= i < |s.outcomes| && s.outcomes[i].1.Granted? && s.outcomes[i].1.id == id ==>
          s.outcomes[i].1.to == s.byID[id].state && s.outcomes[i].1.at <= s.byID[id].terms.expiresAt)
  }

  lemma DecidedIsDecidedOnce(s: Runs.Store, id: string)
    requires Runs.Decided(s) && id in s.byID
    ensures DecidedOnce(s, id)
  {
    forall i | 0 <= i < |s.outcomes|
      ensures Runs.GrantStands(s, s.outcomes[i].1)
    {
    }
  }

  /** Each request is decided by at most one successful call, in time, and only by one. */
  lemma OneDecisionPerRequest(cfg: Config, now: int, actions: seq<Action>, id: string)
    requires Inverts(cfg.codec) && id in Reached(cfg, now, actions).store.byID
    ensures DecidedOnce(Reached(cfg, now, actions).store, id)
  {
    ReachedHoldsInv(cfg, now, actions);
    DecidedIsDecidedOnce(Reached(cfg, now, actions).store, id);
  }

  // ---------------------------------------------------------------- tenancy

  /** The indexes of the tenancy store agree with each other in every state of every run. */
  lemma IndexesAlwaysAgree(cfg: Config, now: int, actions: seq<Action>)
    requires Inverts(cfg.codec)
    ensures Tenancy.Consistent(cfg.consent.c, Reached(cfg, now, actions).tenants)
  {
    ReachedHoldsInv(cfg, now, actions);
  }

  /** The agent of every stored request has a tenant and a grant there, and no handler ever follows a nil pointer. */
  lemma NoLookupFails(cfg: Config, now: int, actions: seq<Action>)
    requires Inverts(cfg.codec)
    ensures var s := Reached(cfg, now, actions);
      && !s.fault
      && (forall id :: id in s.store.byID ==>
            var agent := s.store.byID[id].terms.agentID;
            Tenancy.ByAgent(s.tenants, agent).Some? && agent in Tenancy.ByAgent(s.tenants, agent).value.grants)
  {
    ReachedHoldsInv(cfg, now, actions);
    var s := Reached(cfg, now, actions);
    forall id | id in s.store.byID
      ensures var agent := s.store.byID[id].terms.agentID;
        Tenancy.ByAgent(s.tenants, agent).Some? && agent in Tenancy.ByAgent(s.tenants, agent).value.grants
    {
      var agent := s.store.byID[id].terms.agentID;
      BoundHasTenant(s.tenants, agent, s.tenants.byAgent[agent]);
    }
  }

  /** A binding, once made, is made for good. */
  lemma BindingsArePermanent(cfg: Config, now: int, before: seq<Action>, after: seq<Action>, agent: string)
    requires Inverts(cfg.codec) && agent in Reached(cfg, now, before).tenants.byAgent
    ensures var s := Reached(cfg, now, before);
      var t := Run(cfg, s, after);
      agent in t.tenants.byAgent && t.tenants.byAgent[agent] == s.tenants.byAgent[agent]
  {
    ReachedHoldsInv(cfg, now, before);
    RunKeepsInv(cfg, Reached(cfg, now, before), after);
  }

  /** Agent by agent, every earlier export of a tenant's log is a prefix of every later one. */
  lemma ExportsGrow(cfg: Config, now: int, before: seq<Action>, after: seq<Action>, root: string)
    requires Inverts(cfg.codec) && root in Reached(cfg, now, before).tenants.byRoot
    ensures var s := Reached(cfg, now, before);
      var t := Run(cfg, s, after);
      root in t.tenants.byRoot && Missions.Extends(s.tenants.byRoot[root].log, t.tenants.byRoot[root].log)
  {
    ReachedHoldsInv(cfg, now, before);
    RunKeepsInv(cfg, Reached(cfg, now, before), after);
  }

  lemma ChainsAreLinked(cfg: Config, now: int, actions: seq<Action>, root: string, agent: string)
    requires Inverts(cfg.codec)
    requires root in Reached(cfg, now, actions).tenants.byRoot
    requires agent in Reached(cfg, now, actions).tenants.byRoot[root].log
    ensures Missions.Linked(cfg.consent.c, Reached(cfg, now, actions).tenants.byRoot[root].log[agent])
  {
    ReachedHoldsInv(cfg, now, actions);
  }

  /**
   * The last hash of an exported chain commits to all of it: chains of any two runs, roots and agents that end in
   * one hash are equal entry by entry, or two of the texts hashed into them collide.
   */
  lemma ExportedHeadCommits(cfg: Config, now: int, run: seq<Action>, root: string, agent: string,
                            now': int, run': seq<Action>, root': string, agent': string)
    requires Inverts(cfg.codec)
    requires root in Reached(cfg, now, run).tenants.byRoot
    requires agent in Reached(cfg, now, run).tenants.byRoot[root].log
    requires root' in Reached(cfg, now', run').tenants.byRoot
    requires agent' in Reached(cfg, now', run').tenants.byRoot[root'].log
    ensures var a := Reached(cfg, now, run).tenants.byRoot[root].log[agent];
      var b := Reached(cfg, now', run').tenants.byRoot[root'].log[agent'];
      Missions.HeadHash(a) == Missions.HeadHash(b) ==>
        a == b || Collision(cfg.consent.c.sha256, Missions.HashedTexts(a), Missions.HashedTexts(b))
  {
    ChainsAreLinked(cfg, now, run, root, agent);
    ChainsAreLinked(cfg, now', run', root', agent');
    var a := Reached(cfg, now, run).tenants.byRoot[root].log[agent];
    var b := Reached(cfg, now', run').tenants.byRoot[root'].log[agent'];
    if Missions.HeadHash(a) == Missions.HeadHash(b) {
      Missions.SameHeadSameChain(cfg.consent.c, a, b);
    }
  }

  // ---------------------------------------------------------------- tokens

  lemma RequestKeptAt(cfg: Config, s: System, k: nat)
    requires Inv(cfg, s) && k < |s.issued|
    ensures ResourceKept(cfg, s.issued[k].terms)
  {
  }

  /** Mint checked the amount that was filed with the request, and names its agent and resource. */
  lemma EnvelopeWasChecked(cfg: Config, i: Issue)
    requires MintedFrom(cfg, i) && ResourceKept(cfg, i.terms)
    ensures i.claims.agent == i.terms.agentID && i.claims.aud == i.terms.resource
    ensures CheckPaymentEnvelope(i.psa.scope, i.terms.amountWei, i.claims.stepUp.Some?).None?
    ensures PaymentAllowed(i.psa.scope, i.terms.amountWei, i.claims.stepUp.Some?)
  {
    var scope := i.psa.scope;
    EnvelopeExactly(scope, i.terms.amountWei, i.claims.stepUp.Some?, BigOrZero(i.terms.amountWei),
      BigOrZero(scope.stepUpAboveWei), BigOrZero(scope.paymentCapWei));
  }

  /** On numbers: no amount, or one that is no more than the cap and, without a step-up, not above the threshold. */
  ghost predicate PaymentAllowed(s: Scope, amountWei: string, stepUp: bool) {
    amountWei == "" ||
      exists amount, cap :: SetString(amountWei, 10) == Some(amount) && SetString(s.paymentCapWei, 10) == Some(cap)
        && cap != 0 && amount <= cap
        && (stepUp || forall threshold :: SetString(s.stepUpAboveWei, 10) == Some(threshold) && 0 < threshold ==>
                        amount <= threshold)
  }

  lemma HexStrReads(b: Bytes)
    ensures ReadsAs(HexStr(b), b)
  {
    HexRoundTrip(b);
    assert HexStr(b)[2..] == HexEncode(b);
  }

  /** The text is a 0x and the hexadecimal form of these bytes. */
  ghost predicate ReadsAs(text: string, b: Bytes) {
    Eip712.HasHexPrefix(text) && HexDecode(text[2..]) == Some(b)
  }

  /** The claim shows the digest of these terms, and the signature over it of the account that the root names. */
  ghost predicate StepUpClaimed(cfg: Config, t: Terms, root: string, stepUp: StepUp) {
    var digest := ApprovalDigest(cfg.consent.c, t, cfg.consent.chainID, cfg.consent.registry);
    digest.Some? && ReadsAs(stepUp.digest, digest.value)
    && exists sig :: StepUpSigned(cfg.consent.c, cfg.consent.chainID, cfg.consent.registry, t, root, sig)
         && ReadsAs(stepUp.sig, sig)
  }

  lemma ShownIsClaimed(cfg: Config, t: Terms, root: string, stepUp: StepUp, sig: Bytes)
    requires StepUpShows(cfg, t, root, stepUp, sig) && Eip712.AddressBytes(root).Some?
    ensures StepUpClaimed(cfg, t, root, stepUp)
  {
    StepUpExactly(cfg.consent.c, cfg.consent.chainID, cfg.consent.registry, t, root, sig);
    HexStrReads(ApprovalDigest(cfg.consent.c, t, cfg.consent.chainID, cfg.consent.registry).value);
    HexStrReads(sig);
  }

  lemma IssueClaimsStepUp(cfg: Config, i: Issue)
    requires StepUpRight(cfg, i.terms, i.psa.root, i.claims.stepUp) && PsaVetted(cfg, i.psa)
    ensures i.claims.stepUp.Some? ==> StepUpClaimed(cfg, i.terms, i.psa.root, i.claims.stepUp.value)
  {
    if i.claims.stepUp.Some? {
      DigestChecksFields(cfg.consent.c, i.psa);
      var sig :| StepUpShows(cfg, i.terms, i.psa.root, i.claims.stepUp.value, sig);
      ShownIsClaimed(cfg, i.terms, i.psa.root, i.claims.stepUp.value, sig);
    }
  }

  /**
   * Every token is for one approved request, exactly: its agent, its audience and the amount its envelope was
   * checked for are the request's own. If that amount is above the threshold of the PSA in force when the token was
   * minted, whichever was in force before, it carries the signature over the digest of this request of the account
   * that the root names, and it is never above the cap.
   */
  lemma LargePaymentsAreSigned(cfg: Config, now: int, actions: seq<Action>, k: nat)
    requires Inverts(cfg.codec) && k < |Reached(cfg, now, actions).issued|
    ensures var s := Reached(cfg, now, actions);
      var i := s.issued[k];
      && i.terms.id in s.store.byID && s.store.byID[i.terms.id].terms == i.terms
      && s.store.byID[i.terms.id].state == Approved
      && i.claims.agent == i.terms.agentID && i.claims.aud == i.terms.resource
      && PaymentAllowed(i.psa.scope, i.terms.amountWei, i.claims.stepUp.Some?)
      && (i.claims.stepUp.Some? <==> i.terms.tier == Elevated)
      && (i.claims.stepUp.Some? ==> StepUpClaimed(cfg, i.terms, i.psa.root, i.claims.stepUp.value))
  {
    ReachedHoldsInv(cfg, now, actions);
    var s := Reached(cfg, now, actions);
    IssueAt(cfg, s, k);
    RequestKeptAt(cfg, s, k);
    EnvelopeWasChecked(cfg, s.issued[k]);
    IssueClaimsStepUp(cfg, s.issued[k]);
  }

  /** A step-up serves one request only: tokens with one step-up digest are for the very same request. */
  lemma StepUpServesOneRequest(cfg: Config, now: int, actions: seq<Action>, j: nat, k: nat)
    requires Inverts(cfg.codec)
    requires j < |Reached(cfg, now, actions).issued| && k < |Reached(cfg, now, actions).issued|
    requires var s := Reached(cfg, now, actions);
      && s.issued[j].claims.stepUp.Some? && s.issued[k].claims.stepUp.Some?
      && s.issued[j].claims.stepUp.value.digest == s.issued[k].claims.stepUp.value.digest
    ensures var t, u := Reached(cfg, now, actions).issued[j].terms, Reached(cfg, now, actions).issued[k].terms;
      t == u || Collision(cfg.consent.c.keccak256, ApprovalHashed(cfg, t), ApprovalHashed(cfg, u))
  {
    ReachedHoldsInv(cfg, now, actions);
    var s := Reached(cfg, now, actions);
    IssueAt(cfg, s, j);
    IssueAt(cfg, s, k);
    SameDigestSameRequest(cfg, s.issued[j], s.issued[k]);
  }

  function ApprovalHashed(cfg: Config, t: Terms): set<Bytes> {
    Documents.Hashed(cfg.consent.c, Documents.ApprovalDoc(t, cfg.consent.chainID, cfg.consent.registry))
  }

  ghost predicate Stepped(cfg: Config, i: Issue) {
    && i.claims.stepUp.Some?
    && exists sig :: StepUpShows(cfg, i.terms, i.psa.root, i.claims.stepUp.value, sig)
  }

  lemma HexStrInjective(a: Bytes, b: Bytes)
    requires HexStr(a) == HexStr(b)
    ensures a == b
  {
    assert HexStr(a)[2..] == HexEncode(a) && HexStr(b)[2..] == HexEncode(b);
    HexInjective(a, b);
  }

  lemma SameApprovalDigest(cfg: Config, i: Issue, j: Issue)
    requires Stepped(cfg, i) && Stepped(cfg, j)
    requires i.claims.stepUp.value.digest == j.claims.stepUp.value.digest
    ensures var c, chain, registry := cfg.consent.c, cfg.consent.chainID, cfg.consent.registry;
      && ApprovalDigest(c, i.terms, chain, registry).Some?
      && ApprovalDigest(c, i.terms, chain, registry) == ApprovalDigest(c, j.terms, chain, registry)
  {
    var c, chain, registry := cfg.consent.c, cfg.consent.chainID, cfg.consent.registry;
    var d, e := ApprovalDigest(c, i.terms, chain, registry), ApprovalDigest(c, j.terms, chain, registry);
    HexStrInjective(d.value, e.value);
  }

  lemma SameDigestSameRequest(cfg: Config, i: Issue, j: Issue)
    requires Stepped(cfg, i) && Stepped(cfg, j)
    requires i.claims.stepUp.value.digest == j.claims.stepUp.value.digest
    ensures i.terms.id == j.terms.id ||
      Collision(cfg.consent.c.keccak256, ApprovalHashed(cfg, i.terms), ApprovalHashed(cfg, j.terms))
  {
    SameApprovalDigest(cfg, i, j);
    SameDigestSameId(cfg, i.terms, j.terms);
  }

  lemma SameDigestSameId(cfg: Config, t: Terms, u: Terms)
    requires var c, chain, registry := cfg.consent.c, cfg.consent.chainID, cfg.consent.registry;
      && ApprovalDigest(c, t, chain, registry).Some?
      && ApprovalDigest(c, t, chain, registry) == ApprovalDigest(c, u, chain, registry)
    ensures t.id == u.id || Collision(cfg.consent.c.keccak256, ApprovalHashed(cfg, t), ApprovalHashed(cfg, u))
  {
    Documents.DigestsBind(cfg.consent.c, Documents.ApprovalDoc(t, cfg.consent.chainID, cfg.consent.registry),
      Documents.ApprovalDoc(u, cfg.consent.chainID, cfg.consent.registry));
  }

  /** All tokens ever handed out for one agent name one root, the one the agent is bound to. */
  lemma OneRootPerAgent(cfg: Config, now: int, actions: seq<Action>, j: nat, k: nat)
    requires Inverts(cfg.codec)
    requires j < |Reached(cfg, now, actions).issued| && k < |Reached(cfg, now, actions).issued|
    requires Reached(cfg, now, actions).issued[j].claims.agent == Reached(cfg, now, actions).issued[k].claims.agent
    ensures var s := Reached(cfg, now, actions);
      exists root ::
        && Runs.RootIsBound(s.tenants.byAgent, s.issued[j].claims.agent, root)
        && s.issued[j].claims.sub == Sub(s.issued[j].psa.registryChain, root)
        && s.issued[k].claims.sub == Sub(s.issued[k].psa.registryChain, root)
  {
    ReachedHoldsInv(cfg, now, actions);
    var s := Reached(cfg, now, actions);
    IssueAt(cfg, s, j);
    IssueAt(cfg, s, k);
    assert Runs.RootIsBound(s.tenants.byAgent, s.issued[j].claims.agent, s.issued[j].psa.root);
  }

  /** No fabrication at the source: the root in `sub` signed the PSA and the grant that the token stands on. */
  lemma IssuedTokenIsRooted(cfg: Config, now: int, actions: seq<Action>, k: nat)
    requires Inverts(cfg.codec) && k < |Reached(cfg, now, actions).issued|
    ensures var i := Reached(cfg, now, actions).issued[k];
      && i.claims.sub == Sub(i.psa.registryChain, i.psa.root)
      && i.grant.root == i.psa.root && i.grant.agentIdentifier == i.claims.agent
      && i.claims.cnf.x == i.grant.agentPubKey
      && i.claims.mission == Some(MissionRef(cfg.issuerURL, i.grant.missionScopeS256))
      && i.claims.iss == i.psa.issuer == cfg.issuerURL && i.claims.dwk == "aauth-issuer.json"
      && i.claims.psa == cfg.issuerURL + "/psa/" + i.psa.root + "#s256=" + PsaHash(cfg.consent.c, i.psa)
      && i.claims.agS256 == GrantHash(cfg.consent.c, i.grant)
      && Thumbprint(cfg.consent.c, cfg.key.pub) in i.psa.keyThumbprints.Items()
      && PsaVetted(cfg, i.psa) && GrantVetted(cfg, i.grant)
  {
    ReachedHoldsInv(cfg, now, actions);
    IssueAt(cfg, Reached(cfg, now, actions), k);
  }

  /** A token is dated by the clock at its minting, and lives for the PSA's limit or an hour, whichever is less. */
  lemma IssuedTokenIsShortLived(cfg: Config, now: int, actions: seq<Action>, k: nat)
    requires Inverts(cfg.codec) && k < |Reached(cfg, now, actions).issued|
    ensures var i := Reached(cfg, now, actions).issued[k];
      && i.claims.exp - i.claims.iat <= i.psa.scope.maxTokenTTLSeconds
      && i.claims.exp - i.claims.iat <= 3600
      && i.claims.iat * 1_000_000_000 <= i.at < (i.claims.iat + 1) * 1_000_000_000
      && (i.psa.scope.maxTokenTTLSeconds * 1_000_000_000 < 0x8000_0000_0000_0000 ==>
            i.claims.exp - i.claims.iat
              == if i.psa.scope.maxTokenTTLSeconds < 3600 then i.psa.scope.maxTokenTTLSeconds else 3600)
  {
    ReachedHoldsInv(cfg, now, actions);
    IssueAt(cfg, Reached(cfg, now, actions), k);
    var i := Reached(cfg, now, actions).issued[k];
    DigestChecksFields(cfg.consent.c, i.psa);
    LifetimeBounded(i.at, HOUR, i.psa.scope.maxTokenTTLSeconds);
    UnixIsFloor(i.at);
    if i.psa.scope.maxTokenTTLSeconds * 1_000_000_000 < 0x8000_0000_0000_0000 {
      LifetimeExactly(i.at, 3600, i.psa.scope.maxTokenTTLSeconds);
    }
  }

  /** The grant hash in a token resolves for ever after, to the grant it was minted from or to a colliding one. */
  lemma IssuedGrantStaysResolvable(cfg: Config, now: int, before: seq<Action>, after: seq<Action>, k: nat)
    requires Inverts(cfg.codec) && k < |Reached(cfg, now, before).issued|
    ensures var i := Reached(cfg, now, before).issued[k];
      var t := Run(cfg, Reached(cfg, now, before), after).tenants;
      && i.claims.agS256 in t.byGrantS256
      && var found := t.byGrantS256[i.claims.agS256];
         found == i.grant ||
           Collision(cfg.consent.c.sha256, {Json.Marshal(GrantJson(found))}, {Json.Marshal(GrantJson(i.grant))})
  {
    ReachedHoldsInv(cfg, now, before);
    var s := Reached(cfg, now, before);
    RunKeepsInv(cfg, s, after);
    IssueAt(cfg, s, k);
    Tenancy.GrantStaysResolvable(cfg.consent.c, s.tenants, Run(cfg, s, after).tenants, s.issued[k].grant);
  }

  // ---------------------------------------------------------------- acceptance by the resource

  /** The server's public pages as its state stands: its keys, the current PSA of each tenant, grants by hash. */
  ghost predicate Published(cfg: Config, web: Verification.Web, s: System) {
    && (forall base :: Verification.IsBase(cfg.issuerURL, base) ==>
          && (exists others :: web.jwks(base + "/jwks.json") == Some([cfg.key.pub] + others))
          && (forall h :: h in s.tenants.byGrantS256 ==>
                web.grant(base + "/grants/" + h) == Some(s.tenants.byGrantS256[h])))
    && (forall r :: r in s.tenants.byRoot ==> web.psa(cfg.issuerURL + "/psa/" + r) == Some(s.tenants.byRoot[r].psa))
  }

  /** The same as the resource's resolvers come to it. */
  ghost predicate Resolved(cfg: Config, web: Verification.Web, s: System) {
    && Verification.FetchKey(web, cfg.issuerURL) == Some(cfg.key.pub)
    && (forall r :: r in s.tenants.byRoot ==>
          web.psa(cfg.issuerURL + "/psa/" + r) == PsaPage(s.tenants, r))
    && (forall h :: h in s.tenants.byGrantS256 ==>
          web.grant(Verification.GrantURL(cfg.issuerURL, h)) == GrantPage(s.tenants, h))
  }

  lemma PublishedIsResolved(cfg: Config, web: Verification.Web, s: System)
    requires Published(cfg, web, s)
    ensures Resolved(cfg, web, s)
  {
    Verification.TrimIsBase(cfg.issuerURL);
  }

  lemma {:induction false} HexHasNoHash(s: string)
    requires HexDecode(s).Some?
    ensures '#' !in s
  {
    if s != "" {
      HexHasNoHash(s[2..]);
      assert s == [s[0], s[1]] + s[2..];
    }
  }

  lemma PrefixHasNoHash(text: string)
    requires '#' !in Eip712.DropHexPrefix(text)
    ensures '#' !in text
  {
  }

  lemma VettedRootHasNoHash(cfg: Config, psa: PSA)
    requires PsaVetted(cfg, psa)
    ensures '#' !in psa.root
  {
    DigestChecksFields(cfg.consent.c, psa);
    HexHasNoHash(Eip712.DropHexPrefix(psa.root));
    PrefixHasNoHash(psa.root);
  }

  /** What the issued token refers to is published, as long as the PSA was not replaced. */
  lemma IssueIsServed(cfg: Config, web: Verification.Web, s: System, i: Issue)
    requires Resolved(cfg, web, s) && '#' !in cfg.issuerURL && '#' !in i.psa.root
    requires i.psa.root in s.tenants.byRoot && s.tenants.byRoot[i.psa.root].psa == i.psa
    requires i.psa.issuer == cfg.issuerURL
    requires var h := GrantHash(cfg.consent.c, i.grant);
      h in s.tenants.byGrantS256 && s.tenants.byGrantS256[h] == i.grant
    ensures Verification.Serves(web, cfg.consent.c, cfg.key,
              MintInputFor(cfg, i.terms, i.psa, i.psa.root, i.grant, i.claims.stepUp))
  {
  }

  /** The conditions a presentation has to meet that depend on the presenter, the clock and the registry alone. */
  ghost predicate PresentedInTime(cfg: Config, registry: Registry, i: Issue, p: Verification.Presentation) {
    && p.aud == i.claims.aud && Unix(p.now) < i.claims.exp
    && p.requestThumb == i.grant.agentThumbprint == Thumbprint(cfg.consent.c, i.claims.cnf)
    && i.psa.notBefore <= Unix(p.nowPsa) <= i.psa.notAfter
    && registry(i.psa.registryChain, i.psa.registry, i.psa.root, i.psa.nonce) == Some(false)
    && i.grant.notBefore <= Unix(p.nowGrant) <= i.grant.notAfter
    && registry(i.grant.registryChain, i.grant.registry, i.grant.root, i.grant.nonce) == Some(false)
  }

  lemma ServedTokenIsAccepted(cfg: Config, web: Verification.Web, registry: Registry, s: System, i: Issue,
                              seen: Verification.Seen, p: Verification.Presentation)
    requires IssueOk(cfg, s.store, s.tenants, i) && ResourceKept(cfg, i.terms)
    requires Inverts(cfg.codec) && Verification.WorkingKey(cfg.consent.c, cfg.key)
    requires Verification.Serves(web, cfg.consent.c, cfg.key,
               MintInputFor(cfg, i.terms, i.psa, i.psa.root, i.grant, i.claims.stepUp))
    requires p.raw == SignClaims(cfg.key, i.claims) && i.claims.jti !in seen
    requires PresentedInTime(cfg, registry, i, p)
    ensures Verification.Verify(Verification.WebVerifier(cfg.consent.c, cfg.codec, web, registry), seen, p)
      == (Ok(i.claims), seen[i.claims.jti := i.claims.exp])
  {
    Verification.MintedTokenIsAccepted(cfg.consent.c, cfg.codec, web, registry, cfg.key,
      MintInputFor(cfg, i.terms, i.psa, i.psa.root, i.grant, i.claims.stepUp), i.at, i.claims.jti, seen, p);
  }

  function PsaURL(cfg: Config, root: string): string {
    cfg.issuerURL + "/psa/" + root
  }

  /**
   * Whoever serves the pages and whatever the registry says: if a presentation of an issued token is accepted, it is
   * read as issued, and the documents it was checked against hold and are the ones it pins, or collide with them.
   */
  lemma AcceptedWasInOrder(cfg: Config, web: Verification.Web, registry: Registry, i: Issue,
                           seen: Verification.Seen, p: Verification.Presentation)
    returns (jwk: JWK, psa: PSA, grant: AgentGrant)
    requires Inverts(cfg.codec) && MintedFrom(cfg, i) && '#' !in cfg.issuerURL && '#' !in i.psa.root
    requires p.raw == SignClaims(cfg.key, i.claims)
    requires Verification.Verify(Verification.WebVerifier(cfg.consent.c, cfg.codec, web, registry), seen, p).0.Ok?
    ensures var v := Verification.WebVerifier(cfg.consent.c, cfg.codec, web, registry);
      && Verification.Verify(v, seen, p) == (Ok(i.claims), seen[i.claims.jti := i.claims.exp])
      && Verification.PresentedRight(v, p, i.claims) && i.claims.jti !in seen
      && Verification.ChainHolds(v, p, i.claims, jwk, psa, grant)
    ensures web.psa(PsaURL(cfg, i.psa.root)) == Some(psa)
    ensures web.grant(Verification.GrantURL(i.claims.iss, i.claims.agS256)) == Some(grant)
    ensures psa == i.psa || Collision(cfg.consent.c.sha256, {Json.Marshal(PsaJson(psa))}, {Json.Marshal(PsaJson(i.psa))})
    ensures grant == i.grant ||
      Collision(cfg.consent.c.sha256, {Json.Marshal(GrantJson(grant))}, {Json.Marshal(GrantJson(i.grant))})
  {
    var v := Verification.WebVerifier(cfg.consent.c, cfg.codec, web, registry);
    Verification.SignedClaimsAreRead(v, cfg.key, i.claims, seen, p);
    ClaimsPin(cfg, i);
    UrlHasNoHash(cfg, i.psa.root);
    var header;
    header, jwk, psa, grant := Verification.AcceptedChain(v, seen, p);
    Verification.ChainIsPinned(cfg.consent.c, cfg.codec, web, registry, p, i.claims, jwk, psa, grant,
      PsaURL(cfg, i.psa.root), i.psa, i.grant);
  }

  lemma UrlHasNoHash(cfg: Config, root: string)
    requires '#' !in cfg.issuerURL && '#' !in root
    ensures '#' !in PsaURL(cfg, root)
  {
  }

  lemma ClaimsPin(cfg: Config, i: Issue)
    requires MintedFrom(cfg, i)
    ensures i.claims.psa == Ref(PsaURL(cfg, i.psa.root), PsaHash(cfg.consent.c, i.psa)) && i.claims.psa != ""
    ensures i.claims.agS256 == GrantHash(cfg.consent.c, i.grant)
    ensures i.claims.agent == i.terms.agentID && i.claims.iss == i.psa.issuer
  {
  }

  /** The documents now on the server's pages are not those the token pins, yet have their hashes. */
  ghost predicate PagesCollide(cfg: Config, s: System, i: Issue)
    requires i.psa.root in s.tenants.byRoot && i.claims.agS256 in s.tenants.byGrantS256
  {
    var psa, grant := s.tenants.byRoot[i.psa.root].psa, s.tenants.byGrantS256[i.claims.agS256];
    || (psa != i.psa && Collision(cfg.consent.c.sha256, {Json.Marshal(PsaJson(psa))}, {Json.Marshal(PsaJson(i.psa))}))
    || (grant != i.grant &&
        Collision(cfg.consent.c.sha256, {Json.Marshal(GrantJson(grant))}, {Json.Marshal(GrantJson(i.grant))}))
  }

  /** The PSA was not replaced since, the presentation is in order, and it is the first of its jti. */
  ghost predicate FirstInTime(cfg: Config, registry: Registry, s: System, i: Issue,
                              seen: Verification.Seen, p: Verification.Presentation)
  {
    && i.psa.root in s.tenants.byRoot && s.tenants.byRoot[i.psa.root].psa == i.psa
    && PresentedInTime(cfg, registry, i, p) && i.claims.jti !in seen
  }

  lemma AcceptedIsInTime(cfg: Config, web: Verification.Web, registry: Registry, s: System, i: Issue,
                         seen: Verification.Seen, p: Verification.Presentation)
    requires Inverts(cfg.codec) && MintedFrom(cfg, i) && '#' !in cfg.issuerURL && '#' !in i.psa.root
    requires i.psa.issuer == cfg.issuerURL && Resolved(cfg, web, s) && p.raw == SignClaims(cfg.key, i.claims)
    requires i.psa.root in s.tenants.byRoot && i.claims.agS256 in s.tenants.byGrantS256 && !PagesCollide(cfg, s, i)
    requires Verification.Verify(Verification.WebVerifier(cfg.consent.c, cfg.codec, web, registry), seen, p).0.Ok?
    ensures FirstInTime(cfg, registry, s, i, seen, p)
  {
    ClaimsPin(cfg, i);
    var jwk, psa, grant := AcceptedWasInOrder(cfg, web, registry, i, seen, p);
    assert psa == s.tenants.byRoot[i.psa.root].psa == i.psa;
    assert grant == s.tenants.byGrantS256[i.claims.agS256] == i.grant;
  }

  lemma InTimeIsAccepted(cfg: Config, web: Verification.Web, registry: Registry, s: System, i: Issue,
                         seen: Verification.Seen, p: Verification.Presentation)
    requires IssueOk(cfg, s.store, s.tenants, i) && ResourceKept(cfg, i.terms)
    requires Inverts(cfg.codec) && Verification.WorkingKey(cfg.consent.c, cfg.key)
    requires '#' !in cfg.issuerURL && '#' !in i.psa.root
    requires Resolved(cfg, web, s) && p.raw == SignClaims(cfg.key, i.claims)
    requires FirstInTime(cfg, registry, s, i, seen, p)
    requires s.tenants.byGrantS256[i.claims.agS256] == i.grant
    ensures Verification.Verify(Verification.WebVerifier(cfg.consent.c, cfg.codec, web, registry), seen, p).0.Ok?
  {
    ClaimsPin(cfg, i);
    IssueIsServed(cfg, web, s, i);
    ServedTokenIsAccepted(cfg, web, registry, s, i, seen, p);
  }

  lemma PagesHoldGrant(cfg: Config, s: System, i: Issue)
    requires IssueOk(cfg, s.store, s.tenants, i) && Tenancy.HashesRight(cfg.consent.c, s.tenants)
    requires i.psa.root in s.tenants.byRoot
    ensures i.claims.agS256 in s.tenants.byGrantS256
    ensures !PagesCollide(cfg, s, i) ==> s.tenants.byGrantS256[i.claims.agS256] == i.grant
  {
    ClaimsPin(cfg, i);
    GrantHashPins(cfg.consent.c, s.tenants.byGrantS256[i.claims.agS256], i.grant);
  }

  /** An issued token, the pages as they stand, and what identifies the token on the wire. */
  ghost predicate OnThePages(cfg: Config, web: Verification.Web, s: System, i: Issue, p: Verification.Presentation) {
    && MintedFrom(cfg, i) && i.psa.issuer == cfg.issuerURL && '#' !in i.psa.root
    && i.psa.root in s.tenants.byRoot && i.claims.agS256 in s.tenants.byGrantS256
    && Resolved(cfg, web, s) && p.raw == SignClaims(cfg.key, i.claims)
  }

  ghost predicate Orderly(cfg: Config, web: Verification.Web, s: System, i: Issue, p: Verification.Presentation) {
    && IssueOk(cfg, s.store, s.tenants, i) && ResourceKept(cfg, i.terms) && OnThePages(cfg, web, s, i, p)
    && (!PagesCollide(cfg, s, i) ==> s.tenants.byGrantS256[i.claims.agS256] == i.grant)
  }

  lemma OrderlyOnlyIf(cfg: Config, s: System, i: Issue, web: Verification.Web, registry: Registry,
                      seen: Verification.Seen, p: Verification.Presentation)
    requires OnThePages(cfg, web, s, i, p) && Inverts(cfg.codec) && '#' !in cfg.issuerURL
    ensures Verification.Verify(Verification.WebVerifier(cfg.consent.c, cfg.codec, web, registry), seen, p).0.Ok? ==>
      FirstInTime(cfg, registry, s, i, seen, p) || PagesCollide(cfg, s, i)
  {
    if Verification.Verify(Verification.WebVerifier(cfg.consent.c, cfg.codec, web, registry), seen, p).0.Ok? {
      if !PagesCollide(cfg, s, i) {
        AcceptedIsInTime(cfg, web, registry, s, i, seen, p);
      }
    }
  }

  lemma OrderlyIf(cfg: Config, s: System, i: Issue, web: Verification.Web, registry: Registry,
                  seen: Verification.Seen, p: Verification.Presentation)
    requires Orderly(cfg, web, s, i, p) && Inverts(cfg.codec) && '#' !in cfg.issuerURL
    requires Verification.WorkingKey(cfg.consent.c, cfg.key)
    ensures FirstInTime(cfg, registry, s, i, seen, p) ==>
      || Verification.Verify(Verification.WebVerifier(cfg.consent.c, cfg.codec, web, registry), seen, p).0.Ok?
      || PagesCollide(cfg, s, i)
  {
    if FirstInTime(cfg, registry, s, i, seen, p) && !PagesCollide(cfg, s, i) {
      InTimeIsAccepted(cfg, web, registry, s, i, seen, p);
    }
  }

  lemma IssueIsOrderly(cfg: Config, now: int, actions: seq<Action>, k: nat, web: Verification.Web,
                       p: Verification.Presentation)
    requires Inverts(cfg.codec) && k < |Reached(cfg, now, actions).issued|
    requires Published(cfg, web, Reached(cfg, now, actions))
    requires p.raw == SignClaims(cfg.key, Reached(cfg, now, actions).issued[k].claims)
    ensures Orderly(cfg, web, Reached(cfg, now, actions), Reached(cfg, now, actions).issued[k], p)
  {
    ReachedHoldsInv(cfg, now, actions);
    var s := Reached(cfg, now, actions);
    IssueAt(cfg, s, k);
    RequestKeptAt(cfg, s, k);
    BoundHasTenant(s.tenants, s.issued[k].terms.agentID, s.issued[k].psa.root);
    VettedRootHasNoHash(cfg, s.issued[k].psa);
    PagesHoldGrant(cfg, s, s.issued[k]);
    PublishedIsResolved(cfg, web, s);
  }

  /**
   * From one end to the other, and exactly: in any state the server can reach, a presentation of a token it handed out
   * to a resource that reads the server's published pages is accepted, and with exactly the claims it was given, if
   * and only if its PSA was not replaced since, it is presented to its audience before it expires and for the first
   * time, by the holder of the granted key, whose public half the grant carries, with both attestations in their
   * windows and unrevoked; or a document on the pages collides with the one the token pins.
   */
  lemma IssuedTokenIsAccepted(cfg: Config, now: int, actions: seq<Action>, k: nat, web: Verification.Web,
                              registry: Registry, seen: Verification.Seen, p: Verification.Presentation)
    requires Inverts(cfg.codec) && k < |Reached(cfg, now, actions).issued|
    requires Verification.WorkingKey(cfg.consent.c, cfg.key) && '#' !in cfg.issuerURL
    requires Published(cfg, web, Reached(cfg, now, actions))
    requires p.raw == SignClaims(cfg.key, Reached(cfg, now, actions).issued[k].claims)
    ensures var s := Reached(cfg, now, actions);
      var i := s.issued[k];
      var accepted := Verification.Verify(Verification.WebVerifier(cfg.consent.c, cfg.codec, web, registry), seen, p);
      && i.psa.root in s.tenants.byRoot && i.claims.agS256 in s.tenants.byGrantS256
      && (accepted.0.Ok? ==> accepted == (Ok(i.claims), seen[i.claims.jti := i.claims.exp]))
      && ((accepted.0.Ok? <==> FirstInTime(cfg, registry, s, i, seen, p)) || PagesCollide(cfg, s, i))
      && (accepted.0.Ok? && Readable(cfg.consent.c.quote) ==> OnlyKey(cfg.consent.c, i.claims.cnf, p.requestThumb))
  {
    var s := Reached(cfg, now, actions);
    var v := Verification.WebVerifier(cfg.consent.c, cfg.codec, web, registry);
    if Verification.Verify(v, seen, p).0.Ok? && Readable(cfg.consent.c.quote) {
      Verification.AcceptedHolder(v, seen, p);
    }
    IssueIsOrderly(cfg, now, actions, k, web, p);
    Verification.SignedClaimsAreRead(Verification.WebVerifier(cfg.consent.c, cfg.codec, web, registry), cfg.key,
      s.issued[k].claims, seen, p);
    OrderlyOnlyIf(cfg, s, s.issued[k], web, registry, seen, p);
    OrderlyIf(cfg, s, s.issued[k], web, registry, seen, p);
  }

  /** Every token handed out, with the header that the server's key signs it under. */
  function IssuedTokens(cfg: Config, s: System): Verification.SignedTokens {
    set k | 0 <= k < |s.issued| :: (Header("EdDSA", "auth+jwt", cfg.key.kid), s.issued[k].claims)
  }

  /**
   * Nothing is accepted that was not asked for and approved: if the server's key signed no more than the server handed
   * out, then whatever any resource accepts under that key, its audience, agent, expiry, root and all other claims are
   * exactly those of a token minted for a request that was approved.
   */
  lemma AcceptedWasIssued(cfg: Config, now: int, actions: seq<Action>, web: Verification.Web, registry: Registry,
                          seen: Verification.Seen, p: Verification.Presentation)
    returns (k: nat)
    requires Inverts(cfg.codec)
    requires Verification.Verify(Verification.WebVerifier(cfg.consent.c, cfg.codec, web, registry), seen, p).0.Ok?
    requires var v := Verification.WebVerifier(cfg.consent.c, cfg.codec, web, registry);
      Verification.FetchKey(web, Verification.Verify(v, seen, p).0.value.iss) == Some(cfg.key.pub)
    requires Verification.Unforged(cfg.consent.c, cfg.key.pub, p.raw, IssuedTokens(cfg, Reached(cfg, now, actions)))
    ensures var v, s := Verification.WebVerifier(cfg.consent.c, cfg.codec, web, registry), Reached(cfg, now, actions);
      var claims := Verification.Verify(v, seen, p).0.value;
      && k < |s.issued| && claims == s.issued[k].claims
      && claims.agent == s.issued[k].terms.agentID && claims.aud == s.issued[k].terms.resource == p.aud
      && s.issued[k].terms.id in s.store.byID && s.store.byID[s.issued[k].terms.id].terms == s.issued[k].terms
      && s.store.byID[s.issued[k].terms.id].state == Approved
  {
    var s := Reached(cfg, now, actions);
    var v := Verification.WebVerifier(cfg.consent.c, cfg.codec, web, registry);
    k := IssueOfAccepted(cfg, s, v, web, seen, p);
    LargePaymentsAreSigned(cfg, now, actions, k);
    Verification.VerifyExactly(v, seen, p, s.issued[k].claims);
  }

  lemma IssueOfAccepted(cfg: Config, s: System, v: Verification.Verifier, web: Verification.Web,
                        seen: Verification.Seen, p: Verification.Presentation)
    returns (k: nat)
    requires Inverts(v.codec) && Verification.Verify(v, seen, p).0.Ok?
    requires forall kid :: v.keyOf(Verification.Verify(v, seen, p).0.value.iss, kid) == Some(cfg.key.pub)
    requires Verification.Unforged(v.c, cfg.key.pub, p.raw, IssuedTokens(cfg, s))
    ensures k < |s.issued| && Verification.Verify(v, seen, p).0.value == s.issued[k].claims
  {
    var claims := Verification.Verify(v, seen, p).0.value;
    var header := Verification.AcceptedTokenWasSigned(v, seen, p, IssuedTokens(cfg, s));
    k :| 0 <= k < |s.issued| && (header, claims) == (Header("EdDSA", "auth+jwt", cfg.key.kid), s.issued[k].claims);
  }

  /**
   * Enrolment does not compare the public key in a grant with its thumbprint, and then no resource accepts what is
   * minted: a token under a grant where the two differ is refused in every presentation, whoever serves the pages and
   * whatever the registry says, unless a grant is served that collides with the one it pins.
   */
  lemma MismatchedKeyIsRefused(cfg: Config, web: Verification.Web, registry: Registry, i: Issue,
                               seen: Verification.Seen, p: Verification.Presentation)
    requires Inverts(cfg.codec) && MintedFrom(cfg, i) && '#' !in cfg.issuerURL && '#' !in i.psa.root
    requires p.raw == SignClaims(cfg.key, i.claims)
    requires Thumbprint(cfg.consent.c, JWK("OKP", "Ed25519", i.grant.agentPubKey)) != i.grant.agentThumbprint
    ensures
      || Verification.Verify(Verification.WebVerifier(cfg.consent.c, cfg.codec, web, registry), seen, p).0.Err?
      || (&& web.grant(Verification.GrantURL(i.claims.iss, i.claims.agS256)).Some?
          && var served := web.grant(Verification.GrantURL(i.claims.iss, i.claims.agS256)).value;
             served != i.grant &&
             Collision(cfg.consent.c.sha256, {Json.Marshal(GrantJson(served))}, {Json.Marshal(GrantJson(i.grant))}))
  {
    if Verification.Verify(Verification.WebVerifier(cfg.consent.c, cfg.codec, web, registry), seen, p).0.Ok? {
      var jwk, psa, grant := AcceptedWasInOrder(cfg, web, registry, i, seen, p);
      assert i.claims.cnf == JWK("OKP", "Ed25519", i.grant.agentPubKey);
    }
  }

  // ---------------------------------------------------------------- revocation

  lemma BeginRevokesNothing(cfg: Config, s: System, thread: nat, call: Call)
    ensures DoBegin(cfg, s, thread, call).revoked == s.revoked
  {
  }

  lemma AdvanceRevokesNothing(cfg: Config, s: System, thread: nat, draw: Draw)
    ensures DoAdvance(cfg, s, thread, draw).revoked == s.revoked
  {
  }

  /** Over any run the registry refuses exactly the handles that were revoked in it or before it. */
  lemma {:induction false} RevokedByRun(cfg: Config, s: System, actions: seq<Action>, root: string, nonce: nat)
    ensures Revocation.Key(root, nonce) in Run(cfg, s, actions).revoked
       <==> Revocation.Key(root, nonce) in s.revoked || Revoke(root, nonce) in actions
    decreases |actions|
  {
    if actions != [] {
      var a := actions[0];
      match a {
        case Begin(thread, call) => BeginRevokesNothing(cfg, s, thread, call);
        case Advance(thread, draw) => AdvanceRevokesNothing(cfg, s, thread, draw);
        case Revoke(r, n) => Revocation.RevokesOneHandle(s.revoked, r, n, 0, "", root, nonce);
        case _ =>
      }
      RevokedByRun(cfg, Step(cfg, s, a), actions[1..], root, nonce);
      assert actions == [a] + actions[1..];
    }
  }

  /** Once a handle is revoked, nothing on it verifies again: at no later state of the run, at no time, for no one. */
  lemma RevocationIsFinal(cfg: Config, now: int, actions: seq<Action>, root: string, nonce: nat, psa: PSA, g: AgentGrant,
                          at: int, issuer: string, keyThumb: string, agentID: string, agentThumb: string)
    requires Revoke(root, nonce) in actions
    requires psa.root == root && psa.nonce == nonce && g.root == root && g.nonce == nonce
    ensures var registry := Revocation.View(Reached(cfg, now, actions).revoked);
      && VerifyPSA(cfg.consent.c, registry, at, psa, issuer, keyThumb).Some?
      && VerifyAgentGrant(cfg.consent.c, registry, at, g, root, agentID, agentThumb).Some?
  {
    RevokedByRun(cfg, Boot(now), actions, root, nonce);
    Revocation.RevokedNeverVerifies(cfg.consent.c, Reached(cfg, now, actions).revoked, psa, g, at, issuer, keyThumb,
      root, agentID, agentThumb);
  }

  /**
   * Exit rights (I2), end to end: after a revocation in a run, no verifier that reads this registry accepts a token
   * whose PSA or whose grant, as it resolves them, is on that handle.
   */
  lemma RevocationEndsAcceptance(cfg: Config, now: int, actions: seq<Action>, root: string, nonce: nat,
                                 v: Verification.Verifier, seen: Verification.Seen, p: Verification.Presentation)
    requires Revoke(root, nonce) in actions
    requires v.c == cfg.consent.c && v.registry == Revocation.View(Reached(cfg, now, actions).revoked)
    ensures var r := Verification.Verify(v, seen, p).0;
      r.Ok? && r.value.psa != "" ==>
        && v.psaOf(r.value.psa).Some? && v.grantOf(r.value.iss, r.value.agS256).Some?
        && var psa, grant := v.psaOf(r.value.psa).value, v.grantOf(r.value.iss, r.value.agS256).value;
           !(psa.root == root && psa.nonce == nonce) && !(grant.root == root && grant.nonce == nonce)
  {
    if Verification.Verify(v, seen, p).0.Ok? && Verification.Verify(v, seen, p).0.value.psa != "" {
      RevokedByRun(cfg, Boot(now), actions, root, nonce);
      var header, jwk, psa, grant := Verification.AcceptedChain(v, seen, p);
      assert v.registry(psa.registryChain, psa.registry, psa.root, psa.nonce) == Some(false);
      assert v.registry(grant.registryChain, grant.registry, grant.root, grant.nonce) == Some(false);
    }
  }
}
