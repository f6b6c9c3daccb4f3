// The person server gets things done: from any state it can be in between handlers, a person whose PSA and grant
// verify and an agent that asks for something within them arrive at a token.
module ServerProgress {
  import opened Attest
  import opened Basics
  import opened Consent
  import Runs = ConsentRuns
  import opened Crypto
  import Handlers
  import Json
  import Missions
  import Revocation
  import opened Server
  import ServerGuarantees
  import opened ServerRuns
  import Tenancy
  import opened Tokens

  /** What the person and the agent bring. */
  datatype Case = Case(psa: PSA, grant: AgentGrant, agent: string, thumb: string, resourceToken: string)

  /** The attestations verify now, they cover the signing key and this agent, who is not bound to another root. */
  ghost predicate Attested(cfg: Config, s: System, k: Case) {
    var registry := Revocation.View(s.revoked);
    && Tenancy.OnboardCheck(cfg.consent.c, registry, s.store.now, k.psa, cfg.issuerURL, KeyThumbs(cfg)).None?
    && VerifyAgentGrant(cfg.consent.c, registry, s.store.now, k.grant, k.psa.root, k.agent, k.thumb).None?
    && Thumbprint(cfg.consent.c, cfg.key.pub) in k.psa.keyThumbprints.Items()
    && (k.agent in s.tenants.byAgent ==> s.tenants.byAgent[k.agent] == k.psa.root)
  }

  function TierOf(cfg: Config, k: Case): Tier
    requires ParseResourceToken(cfg, k.resourceToken).Some?
  {
    TierFor(k.psa.scope, ParseResourceToken(cfg, k.resourceToken).value.amountWei)
  }

  /** The resource's claims read, a mission is bound, and the amount is within the envelope, given the consent it needs. */
  ghost predicate AsksWithin(cfg: Config, k: Case) {
    && ParseResourceToken(cfg, k.resourceToken).Some? && k.grant.missionScopeS256 != ""
    && CheckPaymentEnvelope(k.psa.scope, ParseResourceToken(cfg, k.resourceToken).value.amountWei,
         TierOf(cfg, k) == Elevated).None?
  }

  predicate Unused(s: System, draw: Draw) {
    draw.id !in s.store.byID && draw.code !in s.store.byCode
  }

  function TermsFor(cfg: Config, s: System, k: Case, draw: Draw): Terms
    requires ParseResourceToken(cfg, k.resourceToken).Some?
  {
    NewTerms(k.agent, k.grant, ParseResourceToken(cfg, k.resourceToken).value, TierOf(cfg, k), s.store.now, draw)
  }

  /** The consent a request needs: the root's signature over its digest if it is elevated, else just a click. */
  ghost predicate Consents(cfg: Config, root: string, t: Terms, sig: Bytes) {
    if t.tier == Elevated then StepUpSigned(cfg.consent.c, cfg.consent.chainID, cfg.consent.registry, t, root, sig)
    else sig == []
  }

  function ConsentCall(t: Terms, sig: Bytes): Call {
    if t.tier == Elevated then StepUpPage(t.code, sig) else ApprovePage(t.code)
  }

  /** The agent's tenant holds this very PSA and grant. */
  ghost predicate Settled(ts: Tenancy.Tenants, k: Case) {
    && Tenancy.HoldsGrant(ts, k.psa.root, k.agent) && k.agent in ts.byAgent && ts.byAgent[k.agent] == k.psa.root
    && ts.byRoot[k.psa.root].psa == k.psa && ts.byRoot[k.psa.root].grants[k.agent] == k.grant
  }

  // ---------------------------------------------------------------- five handlers, one after the other

  lemma AfterOnboarding(cfg: Config, s: System, k: Case, draw: Draw)
    requires Handlers.Idle(s) && Attested(cfg, s, k)
    ensures var t := Handlers.Alone(cfg, s, Onboard(k.psa), draw);
      && t == s.(tenants := t.tenants) && t.tenants.byAgent == s.tenants.byAgent
      && k.psa.root in t.tenants.byRoot && t.tenants.byRoot[k.psa.root].psa == k.psa
  {
    Handlers.AloneOnboard(cfg, s, k.psa, draw);
  }

  lemma EnrollSettles(c: Primitives, ts: Tenancy.Tenants, k: Case, e: Missions.Entry)
    requires k.psa.root in ts.byRoot && ts.byRoot[k.psa.root].psa == k.psa
    requires k.agent in ts.byAgent ==> ts.byAgent[k.agent] == k.psa.root
    ensures var more := Tenancy.Enroll(c, ts, k.agent, k.psa.root, k.grant);
      more.Some? && Settled(Tenancy.AppendLog(c, more.value, k.psa.root, k.agent, e), k)
  {
  }

  lemma AfterEnrolment(cfg: Config, s: System, k: Case, draw: Draw)
    requires Handlers.Idle(s) && k.psa.root in s.tenants.byRoot && s.tenants.byRoot[k.psa.root].psa == k.psa
    requires k.grant.root == k.psa.root && (k.agent in s.tenants.byAgent ==> s.tenants.byAgent[k.agent] == k.psa.root)
    requires VerifyAgentGrant(cfg.consent.c, Revocation.View(s.revoked), s.store.now, k.grant, k.grant.root,
               k.agent, k.thumb).None?
    ensures var t := Handlers.Alone(cfg, s, EnrollAgent(k.agent, k.thumb, k.grant), draw);
      t == s.(tenants := t.tenants, enrolled := t.enrolled) && Settled(t.tenants, k)
  {
    Handlers.AloneEnroll(cfg, s, k.agent, k.thumb, k.grant, draw);
    EnrollSettles(cfg.consent.c, s.tenants, k, LogEntry(cfg, "agent_enrolled", "", s.store.now));
  }

  lemma AfterRequest(cfg: Config, s: System, k: Case, draw: Draw)
    requires Handlers.Idle(s) && Tenancy.RootsFiled(s.tenants) && Settled(s.tenants, k) && AsksWithin(cfg, k)
    requires Unused(s, draw) && k.grant.agentThumbprint == k.thumb
    ensures var t := Handlers.Alone(cfg, s, Token(k.agent, k.thumb, k.resourceToken), draw);
      var terms := TermsFor(cfg, s, k, draw);
      && t == s.(tenants := t.tenants, store := Runs.DoCreate(s.store, terms)) && Settled(t.tenants, k)
  {
    Handlers.AloneToken(cfg, s, k.agent, k.thumb, k.resourceToken, draw);
  }

  lemma AfterClick(cfg: Config, s: System, id: string, code: string, draw: Draw)
    requires Handlers.Idle(s) && Runs.Indexed(s.store)
    requires id in s.store.byID && code in s.store.byCode && s.store.byCode[code] == id
    requires s.store.byID[id].state == Pending && s.store.byID[id].terms.tier == Routine
    requires s.store.now <= s.store.byID[id].terms.expiresAt
    ensures var t := Handlers.Alone(cfg, s, ApprovePage(code), draw);
      && t == s.(store := t.store) && t.store.threads == map[]
      && id in t.store.byID && t.store.byID[id] == s.store.byID[id].(state := Approved)
      && t.store.now == s.store.now
  {
    Handlers.AlonePage(cfg, s, code, draw);
    Handlers.CalledExactly(cfg, s, Runs.ApproveRoutine(code));
  }

  lemma AfterSignature(cfg: Config, s: System, t: Terms, root: string, sig: Bytes, draw: Draw)
    requires Handlers.Idle(s) && Runs.Indexed(s.store) && Tenancy.RootsFiled(s.tenants)
    requires t.id in s.store.byID && s.store.byID[t.id] == Entry(t, Pending, [])
    requires t.tier == Elevated && s.store.now <= t.expiresAt && Consents(cfg, root, t, sig)
    requires Runs.RootIsBound(s.tenants.byAgent, t.agentID, root) && root in s.tenants.byRoot
    ensures var u := Handlers.Alone(cfg, s, StepUpPage(t.code, sig), draw);
      && u == s.(store := u.store) && u.store.threads == map[]
      && t.id in u.store.byID && u.store.byID[t.id] == Entry(t, Approved, sig)
  {
    StepUpExactly(cfg.consent.c, cfg.consent.chainID, cfg.consent.registry, t, root, sig);
    Handlers.AloneStepUp(cfg, s, t.code, sig, draw);
    Handlers.CalledExactly(cfg, s, Runs.ApproveElevated(t.code, root, sig));
  }

  lemma AfterConsent(cfg: Config, s: System, t: Terms, root: string, sig: Bytes, draw: Draw)
    requires Handlers.Idle(s) && Runs.Indexed(s.store) && Tenancy.RootsFiled(s.tenants)
    requires t.id in s.store.byID && s.store.byID[t.id] == Entry(t, Pending, [])
    requires s.store.now <= t.expiresAt && Consents(cfg, root, t, sig)
    requires Runs.RootIsBound(s.tenants.byAgent, t.agentID, root) && root in s.tenants.byRoot
    ensures var u := Handlers.Alone(cfg, s, ConsentCall(t, sig), draw);
      && u == s.(store := u.store) && u.store.threads == map[]
      && t.id in u.store.byID && u.store.byID[t.id] == Entry(t, Approved, sig)
  {
    if t.tier == Elevated {
      AfterSignature(cfg, s, t, root, sig, draw);
    } else {
      AfterClick(cfg, s, t.id, t.code, draw);
    }
  }

  lemma MintAgrees(cfg: Config, now: int, ts: Tenancy.Tenants, k: Case, e: Entry, draw: Draw)
    requires Settled(ts, k) && AsksWithin(cfg, k) && e.terms.agentID == k.agent && Handlers.Resolves(ts, k.agent)
    requires Inverts(cfg.codec) && Thumbprint(cfg.consent.c, cfg.key.pub) in k.psa.keyThumbprints.Items()
    requires e.terms.resourceJSON == Json.Marshal(ResourceJson(ParseResourceToken(cfg, k.resourceToken).value))
    requires e.stepUpSig != [] <==> TierOf(cfg, k) == Elevated
    ensures var i := Handlers.IssueFor(cfg, now, ts, e, draw);
      i.Some? && i.value.terms == e.terms && i.value.psa == k.psa && i.value.grant == k.grant
  {
  }

  lemma DecidedPollChangesNothing(cfg: Config, s: System, id: string)
    requires id in s.store.byID && s.store.byID[id].state != Pending
    ensures CallStore(cfg, s, Runs.Poll(id)) == s
  {
    assert s.store.byID[id := s.store.byID[id]] == s.store.byID;
  }

  lemma AfterPoll(cfg: Config, s: System, k: Case, t: Terms, sig: Bytes, draw: Draw)
    requires Handlers.Idle(s) && Handlers.Resolvable(s) && Settled(s.tenants, k) && AsksWithin(cfg, k)
    requires Inverts(cfg.codec) && Thumbprint(cfg.consent.c, cfg.key.pub) in k.psa.keyThumbprints.Items()
    requires t.resourceJSON == Json.Marshal(ResourceJson(ParseResourceToken(cfg, k.resourceToken).value))
    requires t.agentID == k.agent && t.id in s.store.byID
    requires s.store.byID[t.id] == Entry(t, Approved, sig) && (sig != [] <==> TierOf(cfg, k) == Elevated)
    ensures var u := Handlers.Alone(cfg, s, PollPending(k.agent, t.id), draw);
      && |u.issued| == |s.issued| + 1 && s.issued <= u.issued
      && u.issued[|s.issued|].terms == t && u.issued[|s.issued|].psa == k.psa && u.issued[|s.issued|].grant == k.grant
  {
    Handlers.AlonePoll(cfg, s, k.agent, t.id, draw);
    DecidedPollChangesNothing(cfg, s, t.id);
    Handlers.RequestResolves(s, t.id);
    MintAgrees(cfg, s.store.now, s.tenants, k, Entry(t, Approved, sig), draw);
  }

  // ---------------------------------------------------------------- the whole way

  ghost predicate Leads(cfg: Config, s: System, t: System) {
    exists actions :: t == Run(cfg, s, actions)
  }

  lemma {:induction false} RunsChain(cfg: Config, s: System, a: seq<Action>, b: seq<Action>)
    ensures Run(cfg, Run(cfg, s, a), b) == Run(cfg, s, a + b)
    decreases |a|
  {
    if a == [] {
      assert a + b == b;
    } else {
      RunsChain(cfg, Step(cfg, s, a[0]), a[1..], b);
      assert (a + b)[1..] == a[1..] + b;
    }
  }

  /** One more uninterrupted handler keeps the invariant and lengthens the run. */
  lemma OneMore(cfg: Config, s: System, t: System, call: Call, draw: Draw)
    requires Inv(cfg, t) && Inverts(cfg.codec) && Leads(cfg, s, t)
    ensures var u := Handlers.Alone(cfg, t, call, draw);
      Inv(cfg, u) && Handlers.Resolvable(u) && Leads(cfg, s, u)
  {
    Handlers.AloneStaysResolvable(cfg, t, call, draw);
    LeadsOn(cfg, s, t, call, draw);
  }

  lemma LeadsOn(cfg: Config, s: System, t: System, call: Call, draw: Draw)
    requires Leads(cfg, s, t)
    ensures Leads(cfg, s, Handlers.Alone(cfg, t, call, draw))
  {
    Handlers.AloneIsARun(cfg, t, call, draw);
    var a :| t == Run(cfg, s, a);
    var b :| Handlers.Alone(cfg, t, call, draw) == Run(cfg, t, b);
    RunsChain(cfg, s, a, b);
  }

  lemma UntilSettled(cfg: Config, s: System, k: Case, draw: Draw) returns (t: System)
    requires Inv(cfg, s) && Inverts(cfg.codec) && Handlers.Idle(s) && Attested(cfg, s, k)
    ensures Inv(cfg, t) && Leads(cfg, s, t) && Handlers.Resolvable(t)
    ensures t == s.(tenants := t.tenants, enrolled := t.enrolled) && Settled(t.tenants, k)
  {
    assert s == Run(cfg, s, []);
    OneMore(cfg, s, s, Onboard(k.psa), draw);
    AfterOnboarding(cfg, s, k, draw);
    var u := Handlers.Alone(cfg, s, Onboard(k.psa), draw);
    VerifyAgentGrantExactly(cfg.consent.c, Revocation.View(s.revoked), s.store.now, k.grant, k.psa.root, k.agent, k.thumb);
    OneMore(cfg, s, u, EnrollAgent(k.agent, k.thumb, k.grant), draw);
    AfterEnrolment(cfg, u, k, draw);
    t := Handlers.Alone(cfg, u, EnrollAgent(k.agent, k.thumb, k.grant), draw);
  }

  lemma UntilApproved(cfg: Config, s: System, t: System, k: Case, draw: Draw, sig: Bytes) returns (u: System)
    requires Inv(cfg, t) && Inverts(cfg.codec) && Leads(cfg, s, t) && Handlers.Resolvable(t) && Handlers.Idle(t)
    requires Settled(t.tenants, k) && AsksWithin(cfg, k) && Unused(t, draw) && k.grant.agentThumbprint == k.thumb
    requires Consents(cfg, k.psa.root, TermsFor(cfg, t, k, draw), sig)
    ensures Inv(cfg, u) && Leads(cfg, s, u) && Handlers.Resolvable(u) && Handlers.Idle(u) && u.issued == t.issued
    ensures Settled(u.tenants, k) && draw.id in u.store.byID
    ensures u.store.byID[draw.id] == Entry(TermsFor(cfg, t, k, draw), Approved, sig)
  {
    var terms := TermsFor(cfg, t, k, draw);
    OneMore(cfg, s, t, Token(k.agent, k.thumb, k.resourceToken), draw);
    AfterRequest(cfg, t, k, draw);
    var filed := Handlers.Alone(cfg, t, Token(k.agent, k.thumb, k.resourceToken), draw);
    OneMore(cfg, s, filed, ConsentCall(terms, sig), draw);
    AfterConsent(cfg, filed, terms, k.psa.root, sig, draw);
    u := Handlers.Alone(cfg, filed, ConsentCall(terms, sig), draw);
  }

  /** One more token, for this agent and resource, on these attestations, with a step-up iff the tier is elevated. */
  ghost predicate Issues(cfg: Config, s: System, t: System, k: Case)
    requires ParseResourceToken(cfg, k.resourceToken).Some?
  {
    && |t.issued| == |s.issued| + 1 && s.issued <= t.issued
    && var i := t.issued[|s.issued|];
       && i.psa == k.psa && i.grant == k.grant && i.claims.agent == k.agent
       && i.claims.aud == ParseResourceToken(cfg, k.resourceToken).value.iss
       && (i.claims.stepUp.Some? <==> TierOf(cfg, k) == Elevated)
  }

  lemma FinishedIssues(cfg: Config, s: System, t: System, k: Case, terms: Terms)
    requires ParseResourceToken(cfg, k.resourceToken).Some? && Inv(cfg, t)
    requires terms.agentID == k.agent && terms.tier == TierOf(cfg, k)
    requires terms.resource == ParseResourceToken(cfg, k.resourceToken).value.iss
    requires |t.issued| == |s.issued| + 1 && s.issued <= t.issued
    requires var i := t.issued[|s.issued|]; i.terms == terms && i.psa == k.psa && i.grant == k.grant
    ensures Issues(cfg, s, t, k)
  {
    ServerGuarantees.IssueAt(cfg, t, |s.issued|);
    ServerGuarantees.RequestKeptAt(cfg, t, |s.issued|);
    ServerGuarantees.EnvelopeWasChecked(cfg, t.issued[|s.issued|]);
  }

  /**
   * From any state the server can be in between handlers: a person whose PSA and grant verify, and an agent whose
   * request is within the envelope, get a token for that agent and that resource in five handlers, once the request
   * has the consent its tier needs: a click, or the root's signature over its digest.
   */
  lemma RequestWithinGetsItsToken(cfg: Config, s: System, k: Case, draw: Draw, sig: Bytes)
    requires Inv(cfg, s) && Inverts(cfg.codec) && Handlers.Idle(s)
    requires Attested(cfg, s, k) && AsksWithin(cfg, k) && Unused(s, draw)
    requires Consents(cfg, k.psa.root, TermsFor(cfg, s, k, draw), sig)
    ensures exists t :: Leads(cfg, s, t) && Issues(cfg, s, t, k)
  {
    var settled := UntilSettled(cfg, s, k, draw);
    VerifyAgentGrantExactly(cfg.consent.c, Revocation.View(s.revoked), s.store.now, k.grant, k.psa.root, k.agent, k.thumb);
    var approved := UntilApproved(cfg, s, settled, k, draw, sig);
    var terms := TermsFor(cfg, s, k, draw);
    OneMore(cfg, s, approved, PollPending(k.agent, terms.id), draw);
    AfterPoll(cfg, approved, k, terms, sig, draw);
    FinishedIssues(cfg, s, Handlers.Alone(cfg, approved, PollPending(k.agent, terms.id), draw), k, terms);
  }
}
