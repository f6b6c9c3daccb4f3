// The invariant of the person server: what holds of the shared stores, and of everything a handler holds in its local
// variables between two steps, in every state any run can reach.
module ServerRuns {
  import opened Attest
  import opened Basics
  import opened Consent
  import Runs = ConsentRuns
  import opened Crypto
  import Missions
  import Revocation
  import opened Server
  import Tenancy
  import opened Tokens

  // ---------------------------------------------------------------- the shared stores

  /** The PSA was accepted by onboarding: its root signed it, for this server and one of this server's keys. */
  ghost predicate PsaVetted(cfg: Config, psa: PSA) {
    && psa.issuer == cfg.issuerURL
    && (exists k :: k in KeyThumbs(cfg) && k in psa.keyThumbprints.Items())
    && PsaDigest(cfg.consent.c, psa).Some?
    && Attest.SignedAs(cfg.consent.c, psa.root, PsaDigest(cfg.consent.c, psa).value, psa.signature.Items())
  }

  ghost predicate GrantVetted(cfg: Config, g: AgentGrant) {
    && AgentGrantDigest(cfg.consent.c, g).Some?
    && Attest.SignedAs(cfg.consent.c, g.root, AgentGrantDigest(cfg.consent.c, g).value, g.signature.Items())
  }

  ghost predicate AllPsas(ts: Tenancy.Tenants, ok: PSA -> bool) {
    forall r :: r in ts.byRoot ==> ok(ts.byRoot[r].psa)
  }

  ghost predicate AllGrants(ts: Tenancy.Tenants, ok: AgentGrant -> bool) {
    forall r, agent :: Tenancy.HoldsGrant(ts, r, agent) ==> ok(ts.byRoot[r].grants[agent])
  }

  ghost predicate Vetted(cfg: Config, ts: Tenancy.Tenants) {
    AllPsas(ts, psa => PsaVetted(cfg, psa)) && AllGrants(ts, g => GrantVetted(cfg, g))
  }

  /** The resource claims kept with a request read back as the fields the approval digest covers. */
  ghost predicate ResourceKept(cfg: Config, t: Terms) {
    && cfg.codec.resource(t.resourceJSON).Some?
    && var rc := ResourceOf(cfg, t);
       rc.iss == t.resource && rc.amountWei == t.amountWei && rc.scope == t.scopeReq
  }

  /** The agent's grant from this root, which a verifier can fetch by its hash. */
  ghost predicate GrantOf(cfg: Config, ts: Tenancy.Tenants, agent: string, root: string, g: AgentGrant) {
    && g.root == root && g.agentIdentifier == agent
    && GrantHash(cfg.consent.c, g) in ts.byGrantS256
    && GrantVetted(cfg, g)
  }

  /** The mission is one that the root granted the agent. */
  ghost predicate MissionGranted(cfg: Config, ts: Tenancy.Tenants, agent: string, root: string, mission: string) {
    exists g :: GrantOf(cfg, ts, agent, root, g) && g.missionScopeS256 == mission
  }

  /** The tier is the one that some PSA of the root puts the amount in. */
  ghost predicate TierJudged(cfg: Config, root: string, tier: Tier, amountWei: string) {
    exists psa :: PsaVetted(cfg, psa) && psa.root == root && tier == TierFor(psa.scope, amountWei)
  }

  ghost predicate RequestFiled(cfg: Config, ts: Tenancy.Tenants, t: Terms) {
    && t.agentID in ts.byAgent && ResourceKept(cfg, t) && t.expiresAt == t.createdAt + CONSENT_WINDOW
    && MissionGranted(cfg, ts, t.agentID, ts.byAgent[t.agentID], t.missionS256)
    && TierJudged(cfg, ts.byAgent[t.agentID], t.tier, t.amountWei)
  }

  ghost predicate Core(cfg: Config, st: Runs.Store, ts: Tenancy.Tenants) {
    && Runs.Indexed(st) && Runs.Decided(st) && Runs.Signed(cfg.consent, ts.byAgent, st)
    && Tenancy.Consistent(cfg.consent.c, ts) && Vetted(cfg, ts)
    && (forall id :: id in st.byID ==> RequestFiled(cfg, ts, st.byID[id].terms))
  }

  lemma StoreStepKeepsCore(cfg: Config, st: Runs.Store, ts: Tenancy.Tenants, a: Runs.Action)
    requires Core(cfg, st, ts) && Runs.CallsBoundRoot(ts.byAgent, st, a)
    requires a.Create? ==> RequestFiled(cfg, ts, a.terms)
    ensures var after := Runs.Step(cfg.consent, st, a);
      Core(cfg, after, ts) && Runs.Persists(st, after)
  {
    Runs.StepKeepsIndex(cfg.consent, st, a);
    Runs.StepKeepsDecided(cfg.consent, st, a);
    Runs.StepKeepsSigned(cfg.consent, ts.byAgent, st, a);
    Runs.StepPersists(cfg.consent, st, a);
    StepFilesOneRequest(cfg.consent, st, a);
  }

  lemma StepFilesOneRequest(cfg: Runs.Config, st: Runs.Store, a: Runs.Action)
    ensures var after := Runs.Step(cfg, st, a);
      forall id :: id in after.byID && id !in st.byID ==> a.Create? && after.byID[id].terms == a.terms
  {
  }

  lemma RequestStays(cfg: Config, ts: Tenancy.Tenants, after: Tenancy.Tenants, t: Terms)
    requires RequestFiled(cfg, ts, t) && Tenancy.Grows(ts, after)
    ensures RequestFiled(cfg, after, t)
  {
    var g :| GrantOf(cfg, ts, t.agentID, ts.byAgent[t.agentID], g) && g.missionScopeS256 == t.missionS256;
    assert GrantOf(cfg, after, t.agentID, after.byAgent[t.agentID], g);
  }

  /** The tenancy store may grow under the requests. */
  lemma TenancyStepKeepsCore(cfg: Config, st: Runs.Store, ts: Tenancy.Tenants, after: Tenancy.Tenants)
    requires Core(cfg, st, ts) && Tenancy.Grows(ts, after)
    requires Tenancy.Consistent(cfg.consent.c, after) && Vetted(cfg, after)
    ensures Core(cfg, st, after)
  {
    Runs.SignedUnderMore(cfg.consent, ts.byAgent, after.byAgent, st);
    forall id | id in st.byID
      ensures RequestFiled(cfg, after, st.byID[id].terms)
    {
      RequestStays(cfg, ts, after, st.byID[id].terms);
    }
  }

  lemma OnboardKeepsAll(ts: Tenancy.Tenants, psa: PSA, okPsa: PSA -> bool, okGrant: AgentGrant -> bool)
    requires AllPsas(ts, okPsa) && AllGrants(ts, okGrant) && okPsa(psa)
    ensures var after := Tenancy.Onboard(ts, Tenancy.NewTenant(psa));
      AllPsas(after, okPsa) && AllGrants(after, okGrant)
  {
  }

  lemma EnrollKeepsAll(c: Primitives, ts: Tenancy.Tenants, agent: string, g: AgentGrant,
                       okPsa: PSA -> bool, okGrant: AgentGrant -> bool)
    requires AllPsas(ts, okPsa) && AllGrants(ts, okGrant) && okGrant(g)
    requires g.root in ts.byRoot && Tenancy.Enroll(c, ts, agent, g.root, g).Some?
    ensures var after := Tenancy.Enroll(c, ts, agent, g.root, g).value;
      AllPsas(after, okPsa) && AllGrants(after, okGrant)
  {
  }

  lemma LogKeepsAll(c: Primitives, ts: Tenancy.Tenants, root: string, agent: string, e: Missions.Entry,
                    okPsa: PSA -> bool, okGrant: AgentGrant -> bool)
    requires AllPsas(ts, okPsa) && AllGrants(ts, okGrant)
    ensures var after := Tenancy.AppendLog(c, ts, root, agent, e);
      AllPsas(after, okPsa) && AllGrants(after, okGrant)
  {
  }

  lemma OnboardKeepsCore(cfg: Config, st: Runs.Store, ts: Tenancy.Tenants, psa: PSA)
    requires Core(cfg, st, ts) && PsaVetted(cfg, psa)
    ensures var after := Tenancy.Onboard(ts, Tenancy.NewTenant(psa));
      Core(cfg, st, after) && Tenancy.Grows(ts, after)
  {
    Tenancy.OnboardKeepsConsistent(cfg.consent.c, ts, psa);
    OnboardKeepsAll(ts, psa, q => PsaVetted(cfg, q), g => GrantVetted(cfg, g));
    TenancyStepKeepsCore(cfg, st, ts, Tenancy.Onboard(ts, Tenancy.NewTenant(psa)));
  }

  lemma EnrollKeepsCore(cfg: Config, st: Runs.Store, ts: Tenancy.Tenants, agent: string, g: AgentGrant)
    requires Core(cfg, st, ts) && g.root in ts.byRoot && GrantVetted(cfg, g) && g.agentIdentifier == agent
    requires Tenancy.Enroll(cfg.consent.c, ts, agent, g.root, g).Some?
    ensures var after := Tenancy.Enroll(cfg.consent.c, ts, agent, g.root, g).value;
      Core(cfg, st, after) && Tenancy.Grows(ts, after)
  {
    Tenancy.EnrollKeepsConsistent(cfg.consent.c, ts, agent, g.root, g);
    EnrollKeepsAll(cfg.consent.c, ts, agent, g, q => PsaVetted(cfg, q), h => GrantVetted(cfg, h));
    TenancyStepKeepsCore(cfg, st, ts, Tenancy.Enroll(cfg.consent.c, ts, agent, g.root, g).value);
  }

  lemma LogKeepsCore(cfg: Config, st: Runs.Store, ts: Tenancy.Tenants, root: string, agent: string, e: Missions.Entry)
    requires Core(cfg, st, ts) && e.prev == ""
    ensures var after := Tenancy.AppendLog(cfg.consent.c, ts, root, agent, e);
      Core(cfg, st, after) && Tenancy.Grows(ts, after)
  {
    Tenancy.LogKeepsConsistent(cfg.consent.c, ts, root, agent, e);
    LogKeepsAll(cfg.consent.c, ts, root, agent, e, q => PsaVetted(cfg, q), g => GrantVetted(cfg, g));
    TenancyStepKeepsCore(cfg, st, ts, Tenancy.AppendLog(cfg.consent.c, ts, root, agent, e));
  }

  // ---------------------------------------------------------------- what handlers hold between steps

  ghost predicate OwnRequest(st: Runs.Store, agent: string, id: string) {
    id in st.byID && st.byID[id].terms.agentID == agent
  }

  ghost predicate OwnApproved(st: Runs.Store, agent: string, id: string) {
    OwnRequest(st, agent, id) && st.byID[id].state == Approved
  }

  /** Claim texts of a root's signature over the approval digest of exactly these terms. */
  ghost predicate StepUpShows(cfg: Config, t: Terms, root: string, stepUp: StepUp, sig: Bytes) {
    && StepUpHolds(cfg.consent.c, cfg.consent.chainID, cfg.consent.registry, t, root, sig)
    && stepUp == StepUp(
         HexStr(ApprovalDigest(cfg.consent.c, t, cfg.consent.chainID, cfg.consent.registry).value), HexStr(sig))
  }

  /** An approved request carries its root's signature if it is elevated, and none if it is routine. */
  ghost predicate StepUpRight(cfg: Config, t: Terms, root: string, stepUp: Option<StepUp>) {
    && (stepUp.Some? <==> t.tier == Elevated)
    && (stepUp.Some? ==> exists sig :: StepUpShows(cfg, t, root, stepUp.value, sig))
  }

  ghost predicate PointOk(cfg: Config, st: Runs.Store, ts: Tenancy.Tenants, p: Point) {
    match p
    case OnboardVerified(psa) => PsaVetted(cfg, psa)
    case EnrollFound(_, _, g) => g.root in ts.byRoot
    case EnrollVerified(agent, g) => g.root in ts.byRoot && g.agentIdentifier == agent && GrantVetted(cfg, g)
    case TokenTenant(agent, root, _, _) => Runs.RootIsBound(ts.byAgent, agent, root)
    case TokenGranted(agent, root, g, _) => Runs.RootIsBound(ts.byAgent, agent, root) && GrantOf(cfg, ts, agent, root, g)
    case TokenTiered(agent, root, g, res, tier) =>
      && Runs.RootIsBound(ts.byAgent, agent, root) && GrantOf(cfg, ts, agent, root, g)
      && TierJudged(cfg, root, tier, res.amountWei)
    case PollFound(agent, id) => OwnRequest(st, agent, id)
    case PollApproved(agent, id) => OwnApproved(st, agent, id)
    case PollTenant(agent, id, root) => OwnApproved(st, agent, id) && Runs.RootIsBound(ts.byAgent, agent, root)
    case PollGranted(agent, id, root, g) =>
      OwnApproved(st, agent, id) && Runs.RootIsBound(ts.byAgent, agent, root) && GrantOf(cfg, ts, agent, root, g)
    case PollSigned(agent, id, root, g, stepUp) =>
      && OwnApproved(st, agent, id) && Runs.RootIsBound(ts.byAgent, agent, root) && GrantOf(cfg, ts, agent, root, g)
      && StepUpRight(cfg, st.byID[id].terms, root, stepUp)
    case ToLog(_, root, entry) => root in ts.byRoot && entry.prev == ""
    case PageFound(_, id) => id in st.byID
    case StepUpFound(code, id, _) => id in st.byID && code in st.byCode && st.byCode[code] == id
    case StepUpCall(code, root, _) =>
      && code in st.byCode && st.byCode[code] in st.byID
      && Runs.RootIsBound(ts.byAgent, st.byID[st.byCode[code]].terms.agentID, root)
  }

  /** A token handed out: for an approved request, under vetted attestations of the root its agent is bound to. */
  ghost predicate IssueOk(cfg: Config, st: Runs.Store, ts: Tenancy.Tenants, i: Issue) {
    && OwnApproved(st, i.terms.agentID, i.terms.id) && st.byID[i.terms.id].terms == i.terms
    && Runs.RootIsBound(ts.byAgent, i.terms.agentID, i.psa.root)
    && GrantOf(cfg, ts, i.terms.agentID, i.psa.root, i.grant)
    && PsaVetted(cfg, i.psa)
    && StepUpRight(cfg, i.terms, i.psa.root, i.claims.stepUp)
    && MintedFrom(cfg, i)
  }

  /** The claims are those that Mint returns for the request as it was filed. */
  ghost predicate MintedFrom(cfg: Config, i: Issue) {
    var input := MintInputFor(cfg, i.terms, i.psa, i.psa.root, i.grant, i.claims.stepUp);
    && MintCheck(cfg.consent.c, cfg.key, input).None?
    && i.claims == MintedClaims(cfg.consent.c, input, i.at, i.claims.jti)
  }

  ghost function PointsOk(cfg: Config, st: Runs.Store, ts: Tenancy.Tenants): Point -> bool {
    p => PointOk(cfg, st, ts, p)
  }

  ghost function IssuesOk(cfg: Config, st: Runs.Store, ts: Tenancy.Tenants): Issue -> bool {
    i => IssueOk(cfg, st, ts, i)
  }

  ghost predicate AllPoints(points: map<nat, Point>, ok: Point -> bool) {
    forall n :: n in points ==> ok(points[n])
  }

  ghost predicate AllIssues(issued: seq<Issue>, ok: Issue -> bool) {
    forall k :: 0 <= k < |issued| ==> ok(issued[k])
  }

  ghost predicate Inv(cfg: Config, s: System) {
    && Core(cfg, s.store, s.tenants)
    && AllPoints(s.points, PointsOk(cfg, s.store, s.tenants))
    && AllIssues(s.issued, IssuesOk(cfg, s.store, s.tenants))
    && !s.fault
  }

  /** What no step of the whole server takes away. */
  ghost predicate Later(s: System, t: System) {
    && Runs.Persists(s.store, t.store) && Tenancy.Grows(s.tenants, t.tenants)
    && s.revoked <= t.revoked && s.issued <= t.issued && s.enrolled <= t.enrolled
  }

  lemma StandingStill(s: System)
    ensures Later(s, s)
  {
  }

  lemma PointStays(cfg: Config, st: Runs.Store, ts: Tenancy.Tenants, st': Runs.Store, ts': Tenancy.Tenants, p: Point)
    requires PointOk(cfg, st, ts, p) && Runs.Persists(st, st') && Tenancy.Grows(ts, ts')
    ensures PointOk(cfg, st', ts', p)
  {
  }

  lemma IssueStays(cfg: Config, st: Runs.Store, ts: Tenancy.Tenants, st': Runs.Store, ts': Tenancy.Tenants, i: Issue)
    requires IssueOk(cfg, st, ts, i) && Runs.Persists(st, st') && Tenancy.Grows(ts, ts')
    ensures IssueOk(cfg, st', ts', i)
  {
  }

  /** Whatever any handler holds and whatever was handed out stays right while the stores move on. */
  lemma AllStay(cfg: Config, st: Runs.Store, ts: Tenancy.Tenants, st': Runs.Store, ts': Tenancy.Tenants)
    requires Runs.Persists(st, st') && Tenancy.Grows(ts, ts')
    ensures forall p :: PointsOk(cfg, st, ts)(p) ==> PointsOk(cfg, st', ts')(p)
    ensures forall i :: IssuesOk(cfg, st, ts)(i) ==> IssuesOk(cfg, st', ts')(i)
  {
    forall p | PointOk(cfg, st, ts, p)
      ensures PointOk(cfg, st', ts', p)
    {
      PointStays(cfg, st, ts, st', ts', p);
    }
    forall i | IssueOk(cfg, st, ts, i)
      ensures IssueOk(cfg, st', ts', i)
    {
      IssueStays(cfg, st, ts, st', ts', i);
    }
  }

  // ---------------------------------------------------------------- what the checks establish

  lemma CoveredKeyIsCovered(psa: PSA, thumbs: seq<string>)
    requires Tenancy.CoveredKey(psa, thumbs) != ""
    ensures Tenancy.CoveredKey(psa, thumbs) in thumbs
    ensures Tenancy.CoveredKey(psa, thumbs) in psa.keyThumbprints.Items()
  {
  }

  /** A PSA that passes onboarding meets every condition now, for this issuer and one of this server's keys. */
  lemma OnboardCheckVets(cfg: Config, s: System, psa: PSA)
    requires Tenancy.OnboardCheck(cfg.consent.c, Revocation.View(s.revoked), s.store.now, psa, cfg.issuerURL,
               KeyThumbs(cfg)).None?
    ensures PsaVetted(cfg, psa)
    ensures exists thumb :: thumb in KeyThumbs(cfg) &&
              PsaHolds(cfg.consent.c, Revocation.View(s.revoked), s.store.now, psa, cfg.issuerURL, thumb)
  {
    var covered := Tenancy.CoveredKey(psa, KeyThumbs(cfg));
    CoveredKeyIsCovered(psa, KeyThumbs(cfg));
    VerifyPSAExactly(cfg.consent.c, Revocation.View(s.revoked), s.store.now, psa, cfg.issuerURL, covered);
  }

  /** The lookups that handlers leave unchecked: a bound agent has a tenant, and that tenant has its grant. */
  lemma BoundHasTenant(ts: Tenancy.Tenants, agent: string, root: string)
    requires Tenancy.RootsFiled(ts) && Tenancy.AgentsBound(ts) && Runs.RootIsBound(ts.byAgent, agent, root)
    ensures Tenancy.HoldsGrant(ts, root, agent)
    ensures Tenancy.ByAgent(ts, agent) == Some(ts.byRoot[root])
    ensures ts.byRoot[root].root == root && ts.byRoot[root].psa.root == root
  {
  }

  /** And what is found there is what the root signed. */
  lemma BoundIsVetted(cfg: Config, ts: Tenancy.Tenants, agent: string, root: string)
    requires Tenancy.GrantsNamed(cfg.consent.c, ts) && Vetted(cfg, ts) && Tenancy.HoldsGrant(ts, root, agent)
    ensures PsaVetted(cfg, ts.byRoot[root].psa)
    ensures GrantOf(cfg, ts, agent, root, ts.byRoot[root].grants[agent])
  {
    var vetted := (psa: PSA) => PsaVetted(cfg, psa);
    assert vetted(ts.byRoot[root].psa);
    var granted := (g: AgentGrant) => GrantVetted(cfg, g);
    assert granted(ts.byRoot[root].grants[agent]);
  }

  lemma NewTermsAreFiled(cfg: Config, ts: Tenancy.Tenants, agent: string, grant: AgentGrant, res: ResourceClaims,
                         tier: Tier, now: int, draw: Draw)
    requires Inverts(cfg.codec) && agent in ts.byAgent
    requires GrantOf(cfg, ts, agent, ts.byAgent[agent], grant) && TierJudged(cfg, ts.byAgent[agent], tier, res.amountWei)
    ensures RequestFiled(cfg, ts, NewTerms(agent, grant, res, tier, now, draw))
  {
  }

  /** The signature stored with an approved request makes exactly the claim it should. */
  lemma StoredSignatureShows(cfg: Config, ts: Tenancy.Tenants, e: Entry)
    requires Runs.EntrySigned(cfg.consent, ts.byAgent, e) && e.state == Approved && e.terms.agentID in ts.byAgent
    ensures StepUpRight(cfg, e.terms, ts.byAgent[e.terms.agentID], StepUpFor(cfg, e.terms, e.stepUpSig))
  {
    if e.stepUpSig != [] {
      assert StepUpShows(cfg, e.terms, ts.byAgent[e.terms.agentID], StepUpFor(cfg, e.terms, e.stepUpSig).value, e.stepUpSig);
    }
  }

  // ---------------------------------------------------------------- every step keeps the invariant

  lemma CallStoreKeepsInv(cfg: Config, s: System, a: Runs.Action)
    requires Inv(cfg, s) && Runs.CallsBoundRoot(s.tenants.byAgent, s.store, a)
    requires a.Create? ==> RequestFiled(cfg, s.tenants, a.terms)
    ensures Inv(cfg, CallStore(cfg, s, a)) && Later(s, CallStore(cfg, s, a))
  {
    StoreStepKeepsCore(cfg, s.store, s.tenants, a);
    AllStay(cfg, s.store, s.tenants, Runs.Step(cfg.consent, s.store, a), s.tenants);
  }

  lemma AllMore(points: map<nat, Point>, issued: seq<Issue>, ok: Point -> bool, more: Point -> bool,
                right: Issue -> bool, still: Issue -> bool)
    requires AllPoints(points, ok) && AllIssues(issued, right)
    requires (forall p :: ok(p) ==> more(p)) && (forall i :: right(i) ==> still(i))
    ensures AllPoints(points, more) && AllIssues(issued, still)
  {
  }

  lemma TenantsKeepInv(cfg: Config, s: System, ts: Tenancy.Tenants)
    requires Inv(cfg, s) && Core(cfg, s.store, ts) && Tenancy.Grows(s.tenants, ts)
    ensures Inv(cfg, s.(tenants := ts)) && Later(s, s.(tenants := ts))
  {
    AllStay(cfg, s.store, s.tenants, s.store, ts);
    AllMore(s.points, s.issued, PointsOk(cfg, s.store, s.tenants), PointsOk(cfg, s.store, ts),
      IssuesOk(cfg, s.store, s.tenants), IssuesOk(cfg, s.store, ts));
  }

  lemma EnrolledKeepsInv(cfg: Config, s: System, e: Enrolment)
    requires Inv(cfg, s)
    ensures Inv(cfg, s.(enrolled := s.enrolled + [e]))
  {
  }

  lemma AppendKeepsAll(issued: seq<Issue>, i: Issue, ok: Issue -> bool)
    requires AllIssues(issued, ok) && ok(i)
    ensures AllIssues(issued + [i], ok)
  {
  }

  lemma IssueKeepsInv(cfg: Config, s: System, i: Issue)
    requires Inv(cfg, s) && IssueOk(cfg, s.store, s.tenants, i)
    ensures Inv(cfg, s.(issued := s.issued + [i])) && Later(s, s.(issued := s.issued + [i]))
  {
    AppendKeepsAll(s.issued, i, IssuesOk(cfg, s.store, s.tenants));
    StandingStill(s);
  }

  lemma PutKeepsAll(points: map<nat, Point>, thread: nat, p: Point, ok: Point -> bool)
    requires AllPoints(points, ok) && ok(p)
    ensures AllPoints(points[thread := p], ok)
  {
  }

  lemma MoveKeepsInv(cfg: Config, s: System, thread: nat, p: Point)
    requires Inv(cfg, s) && PointOk(cfg, s.store, s.tenants, p)
    ensures Inv(cfg, Move(s, thread, p)) && Later(s, Move(s, thread, p))
  {
    PutKeepsAll(s.points, thread, p, PointsOk(cfg, s.store, s.tenants));
    StandingStill(s);
  }

  lemma DoneKeepsInv(cfg: Config, s: System, thread: nat)
    requires Inv(cfg, s)
    ensures Inv(cfg, Done(s, thread)) && Later(s, Done(s, thread))
  {
  }

  lemma StoreThenMove(cfg: Config, s: System, a: Runs.Action, thread: nat, p: Point)
    requires Inv(cfg, s) && Runs.CallsBoundRoot(s.tenants.byAgent, s.store, a)
    requires a.Create? ==> RequestFiled(cfg, s.tenants, a.terms)
    requires PointOk(cfg, Runs.Step(cfg.consent, s.store, a), s.tenants, p)
    ensures var t := Move(CallStore(cfg, s, a), thread, p);
      Inv(cfg, t) && Later(s, t)
  {
    CallStoreKeepsInv(cfg, s, a);
    MoveKeepsInv(cfg, CallStore(cfg, s, a), thread, p);
  }

  lemma IssueThenMove(cfg: Config, s: System, i: Issue, thread: nat, p: Point)
    requires Inv(cfg, s) && IssueOk(cfg, s.store, s.tenants, i) && PointOk(cfg, s.store, s.tenants, p)
    ensures var t := Move(s.(issued := s.issued + [i]), thread, p);
      Inv(cfg, t) && Later(s, t)
  {
    IssueKeepsInv(cfg, s, i);
    MoveKeepsInv(cfg, s.(issued := s.issued + [i]), thread, p);
  }

  lemma OwnPoint(cfg: Config, s: System, thread: nat)
    requires Inv(cfg, s) && thread in s.points
    ensures PointOk(cfg, s.store, s.tenants, s.points[thread])
  {
    var ok := PointsOk(cfg, s.store, s.tenants);
    assert ok(s.points[thread]);
  }

  lemma OnboardCallKeepsInv(cfg: Config, s: System, thread: nat, psa: PSA)
    requires Inv(cfg, s)
    ensures var t := DoBegin(cfg, s, thread, Onboard(psa));
      Inv(cfg, t) && Later(s, t)
  {
    if DoBegin(cfg, s, thread, Onboard(psa)) == s {
      StandingStill(s);
    } else {
      OnboardCheckVets(cfg, s, psa);
      MoveKeepsInv(cfg, s, thread, OnboardVerified(psa));
    }
  }

  lemma AgentCallKeepsInv(cfg: Config, s: System, thread: nat, call: Call)
    requires Inv(cfg, s) && (call.EnrollAgent? || call.Token?)
    ensures Inv(cfg, DoBegin(cfg, s, thread, call)) && Later(s, DoBegin(cfg, s, thread, call))
  {
    if DoBegin(cfg, s, thread, call) == s {
      StandingStill(s);
    } else {
      match call
      case EnrollAgent(agent, thumb, grant) => MoveKeepsInv(cfg, s, thread, EnrollFound(agent, thumb, grant));
      case Token(agent, thumb, resourceToken) =>
        MoveKeepsInv(cfg, s, thread, TokenTenant(agent, Tenancy.ByAgent(s.tenants, agent).value.root, thumb, resourceToken));
    }
  }

  lemma ConsentCallKeepsInv(cfg: Config, s: System, thread: nat, call: Call)
    requires Inv(cfg, s) && (call.ApprovePage? || call.StepUpPage?)
    ensures Inv(cfg, DoBegin(cfg, s, thread, call)) && Later(s, DoBegin(cfg, s, thread, call))
  {
    if DoBegin(cfg, s, thread, call) == s {
      StandingStill(s);
    } else {
      match call
      case ApprovePage(code) => MoveKeepsInv(cfg, s, thread, PageFound(code, s.store.byCode[code]));
      case StepUpPage(code, sig) => MoveKeepsInv(cfg, s, thread, StepUpFound(code, s.store.byCode[code], sig));
    }
  }

  lemma DenyCallKeepsInv(cfg: Config, s: System, thread: nat, code: string)
    requires Inv(cfg, s)
    ensures var t := DoBegin(cfg, s, thread, DenyCall(code));
      Inv(cfg, t) && Later(s, t)
  {
    if thread in s.points || thread in s.store.threads {
      StandingStill(s);
    } else {
      CallStoreKeepsInv(cfg, s, Runs.Start(thread, Runs.Deny(code)));
    }
  }

  lemma PollCallKeepsInv(cfg: Config, s: System, thread: nat, agent: string, id: string)
    requires Inv(cfg, s)
    ensures var t := DoBegin(cfg, s, thread, PollPending(agent, id));
      Inv(cfg, t) && Later(s, t)
  {
    var t, polled := DoBegin(cfg, s, thread, PollPending(agent, id)), CallStore(cfg, s, Runs.Poll(id));
    if t == s {
      StandingStill(s);
    } else if t == polled {
      CallStoreKeepsInv(cfg, s, Runs.Poll(id));
    } else {
      StoreThenMove(cfg, s, Runs.Poll(id), thread, PollFound(agent, id));
    }
  }

  lemma BeginKeepsInv(cfg: Config, s: System, thread: nat, call: Call)
    requires Inv(cfg, s)
    ensures Inv(cfg, DoBegin(cfg, s, thread, call)) && Later(s, DoBegin(cfg, s, thread, call))
  {
    match call
    case Onboard(psa) => OnboardCallKeepsInv(cfg, s, thread, psa);
    case PollPending(agent, id) => PollCallKeepsInv(cfg, s, thread, agent, id);
    case ApprovePage(_) => ConsentCallKeepsInv(cfg, s, thread, call);
    case StepUpPage(_, _) => ConsentCallKeepsInv(cfg, s, thread, call);
    case DenyCall(code) => DenyCallKeepsInv(cfg, s, thread, code);
    case _ => AgentCallKeepsInv(cfg, s, thread, call);
  }

  lemma OnboardKeepsInv(cfg: Config, s: System, thread: nat, psa: PSA)
    requires Inv(cfg, s) && thread in s.points && s.points[thread] == OnboardVerified(psa)
    ensures var t := AdvanceTenancy(cfg, s, thread, OnboardVerified(psa));
      Inv(cfg, t) && Later(s, t)
  {
    var ts := Tenancy.Onboard(s.tenants, Tenancy.NewTenant(psa));
    OwnPoint(cfg, s, thread);
    OnboardKeepsCore(cfg, s.store, s.tenants, psa);
    TenantsKeepInv(cfg, s, ts);
    DoneKeepsInv(cfg, s.(tenants := ts), thread);
  }

  lemma GrantCheckKeepsInv(cfg: Config, s: System, thread: nat, agent: string, thumb: string, grant: AgentGrant)
    requires Inv(cfg, s) && thread in s.points && s.points[thread] == EnrollFound(agent, thumb, grant)
    ensures var t := AdvanceTenancy(cfg, s, thread, EnrollFound(agent, thumb, grant));
      Inv(cfg, t) && Later(s, t)
  {
    OwnPoint(cfg, s, thread);
    var registry := Revocation.View(s.revoked);
    if VerifyAgentGrant(cfg.consent.c, registry, s.store.now, grant, grant.root, agent, thumb).None? {
      VerifyAgentGrantExactly(cfg.consent.c, registry, s.store.now, grant, grant.root, agent, thumb);
      MoveKeepsInv(cfg, s, thread, EnrollVerified(agent, grant));
    } else {
      DoneKeepsInv(cfg, s, thread);
    }
  }

  lemma EnrollKeepsInv(cfg: Config, s: System, thread: nat, agent: string, grant: AgentGrant)
    requires Inv(cfg, s) && thread in s.points && s.points[thread] == EnrollVerified(agent, grant)
    ensures var t := AdvanceTenancy(cfg, s, thread, EnrollVerified(agent, grant));
      Inv(cfg, t) && Later(s, t)
  {
    OwnPoint(cfg, s, thread);
    var enrolled := Tenancy.Enroll(cfg.consent.c, s.tenants, agent, grant.root, grant);
    if enrolled.Some? {
      EnrollKeepsCore(cfg, s.store, s.tenants, agent, grant);
      TenantsKeepInv(cfg, s, enrolled.value);
      var done := s.(tenants := enrolled.value, enrolled := s.enrolled + [Enrolment(agent, grant)]);
      EnrolledKeepsInv(cfg, s.(tenants := enrolled.value), Enrolment(agent, grant));
      MoveKeepsInv(cfg, done, thread,
        ToLog(agent, grant.root, LogEntry(cfg, "agent_enrolled", "", s.store.now)));
    } else {
      DoneKeepsInv(cfg, s, thread);
    }
  }

  lemma LogKeepsInv(cfg: Config, s: System, thread: nat, agent: string, root: string, entry: Missions.Entry)
    requires Inv(cfg, s) && thread in s.points && s.points[thread] == ToLog(agent, root, entry)
    ensures var t := AdvanceTenancy(cfg, s, thread, ToLog(agent, root, entry));
      Inv(cfg, t) && Later(s, t)
  {
    var ts := Tenancy.AppendLog(cfg.consent.c, s.tenants, root, agent, entry);
    OwnPoint(cfg, s, thread);
    LogKeepsCore(cfg, s.store, s.tenants, root, agent, entry);
    TenantsKeepInv(cfg, s, ts);
    DoneKeepsInv(cfg, s.(tenants := ts), thread);
  }

  lemma GrantReadKeepsInv(cfg: Config, s: System, thread: nat, draw: Draw)
    requires Inv(cfg, s) && thread in s.points && s.points[thread].TokenTenant?
    ensures var t := AdvanceToken(cfg, s, thread, s.points[thread], draw);
      Inv(cfg, t) && Later(s, t)
  {
    OwnPoint(cfg, s, thread);
    var p := s.points[thread];
    BoundHasTenant(s.tenants, p.agent, p.root);
    var t := AdvanceToken(cfg, s, thread, p, draw);
    if t == Done(s, thread) {
      DoneKeepsInv(cfg, s, thread);
    } else {
      BoundIsVetted(cfg, s.tenants, p.agent, p.root);
      MoveKeepsInv(cfg, s, thread, t.points[thread]);
    }
  }

  lemma TierReadKeepsInv(cfg: Config, s: System, thread: nat, draw: Draw)
    requires Inv(cfg, s) && thread in s.points && s.points[thread].TokenGranted?
    ensures var t := AdvanceToken(cfg, s, thread, s.points[thread], draw);
      Inv(cfg, t) && Later(s, t)
  {
    OwnPoint(cfg, s, thread);
    var p := s.points[thread];
    BoundHasTenant(s.tenants, p.agent, p.root);
    BoundIsVetted(cfg, s.tenants, p.agent, p.root);
    var psa := s.tenants.byRoot[p.root].psa;
    var tier := TierFor(psa.scope, p.res.amountWei);
    assert TierJudged(cfg, p.root, tier, p.res.amountWei);
    MoveKeepsInv(cfg, s, thread, TokenTiered(p.agent, p.root, p.grant, p.res, tier));
  }

  lemma ReadyToLog(cfg: Config, st: Runs.Store, ts: Tenancy.Tenants, p: Point)
    requires p.ToLog? && p.root in ts.byRoot && p.entry.prev == ""
    ensures PointOk(cfg, st, ts, p)
  {
  }

  lemma FileThenMove(cfg: Config, s: System, terms: Terms, thread: nat, p: Point)
    requires Inv(cfg, s) && RequestFiled(cfg, s.tenants, terms)
    requires p.ToLog? && p.root in s.tenants.byRoot && p.entry.prev == ""
    ensures var t := Move(CallStore(cfg, s, Runs.Create(terms)), thread, p);
      Inv(cfg, t) && Later(s, t)
  {
    ReadyToLog(cfg, Runs.Step(cfg.consent, s.store, Runs.Create(terms)), s.tenants, p);
    StoreThenMove(cfg, s, Runs.Create(terms), thread, p);
  }

  lemma FiledRequestKeepsInv(cfg: Config, s: System, thread: nat, p: Point, draw: Draw)
    requires Inv(cfg, s) && Inverts(cfg.codec) && p.TokenTiered? && PointOk(cfg, s.store, s.tenants, p)
    requires p.root in s.tenants.byRoot && draw.id !in s.store.byID && draw.code !in s.store.byCode
    ensures var t := RequestFiledBy(cfg, s, thread, p, draw);
      Inv(cfg, t) && Later(s, t)
  {
    NewTermsAreFiled(cfg, s.tenants, p.agent, p.grant, p.res, p.tier, s.store.now, draw);
    FileThenMove(cfg, s, NewTerms(p.agent, p.grant, p.res, p.tier, s.store.now, draw), thread,
      ToLog(p.agent, p.root, LogEntry(cfg, "token_request", draw.id, s.store.now)));
  }

  lemma RequestKeepsInv(cfg: Config, s: System, thread: nat, draw: Draw)
    requires Inv(cfg, s) && Inverts(cfg.codec) && thread in s.points && s.points[thread].TokenTiered?
    ensures var t := AdvanceToken(cfg, s, thread, s.points[thread], draw);
      Inv(cfg, t) && Later(s, t)
  {
    OwnPoint(cfg, s, thread);
    var p := s.points[thread];
    BoundHasTenant(s.tenants, p.agent, p.root);
    if draw.id in s.store.byID || draw.code in s.store.byCode {
      StandingStill(s);
    } else {
      FiledRequestKeepsInv(cfg, s, thread, p, draw);
      RequestStep(cfg, s, thread, p, draw);
    }
  }

  lemma StoreCallKeepsInv(cfg: Config, s: System, thread: nat, call: Runs.Call)
    requires Inv(cfg, s) && Runs.CallsBoundRoot(s.tenants.byAgent, s.store, Runs.Start(thread, call))
    ensures var t := Done(CallStore(cfg, s, Runs.Start(thread, call)), thread);
      Inv(cfg, t) && Later(s, t)
  {
    CallStoreKeepsInv(cfg, s, Runs.Start(thread, call));
    DoneKeepsInv(cfg, CallStore(cfg, s, Runs.Start(thread, call)), thread);
  }

  lemma PageKeepsInv(cfg: Config, s: System, thread: nat)
    requires Inv(cfg, s) && thread in s.points && s.points[thread].PageFound?
    ensures var t := AdvanceApproval(cfg, s, thread, s.points[thread]);
      Inv(cfg, t) && Later(s, t)
  {
    OwnPoint(cfg, s, thread);
    var p := s.points[thread];
    if s.store.byID[p.id].terms.tier == Elevated {
      DoneKeepsInv(cfg, s, thread);
    } else {
      StoreCallKeepsInv(cfg, s, thread, Runs.ApproveRoutine(p.code));
    }
  }

  lemma RootLookupKeepsInv(cfg: Config, s: System, thread: nat)
    requires Inv(cfg, s) && thread in s.points && s.points[thread].StepUpFound?
    ensures var t := AdvanceApproval(cfg, s, thread, s.points[thread]);
      Inv(cfg, t) && Later(s, t)
  {
    OwnPoint(cfg, s, thread);
    var p := s.points[thread];
    match Tenancy.ByAgent(s.tenants, s.store.byID[p.id].terms.agentID)
    case None => DoneKeepsInv(cfg, s, thread);
    case Some(t) => MoveKeepsInv(cfg, s, thread, StepUpCall(p.code, t.root, p.sig));
  }

  /** The store's step-up is called with the root that the request's agent is bound to. */
  lemma StepUpCallKeepsInv(cfg: Config, s: System, thread: nat)
    requires Inv(cfg, s) && thread in s.points && s.points[thread].StepUpCall?
    ensures var t := AdvanceApproval(cfg, s, thread, s.points[thread]);
      Inv(cfg, t) && Later(s, t)
  {
    OwnPoint(cfg, s, thread);
    var p := s.points[thread];
    StoreCallKeepsInv(cfg, s, thread, Runs.ApproveElevated(p.code, p.root, p.sig));
  }

  lemma ApprovalAdvanceKeepsInv(cfg: Config, s: System, thread: nat)
    requires Inv(cfg, s) && thread in s.points
    requires var p := s.points[thread]; p.PageFound? || p.StepUpFound? || p.StepUpCall?
    ensures var t := AdvanceApproval(cfg, s, thread, s.points[thread]);
      Inv(cfg, t) && Later(s, t)
  {
    match s.points[thread]
    case PageFound(_, _) => PageKeepsInv(cfg, s, thread);
    case StepUpFound(_, _, _) => RootLookupKeepsInv(cfg, s, thread);
    case StepUpCall(_, _, _) => StepUpCallKeepsInv(cfg, s, thread);
  }

  lemma StateReadKeepsInv(cfg: Config, s: System, thread: nat)
    requires Inv(cfg, s) && thread in s.points && s.points[thread].PollFound?
    ensures var t := AdvancePoll(cfg, s, thread, s.points[thread]);
      Inv(cfg, t) && Later(s, t)
  {
    OwnPoint(cfg, s, thread);
    var p := s.points[thread];
    if s.store.byID[p.id].state == Approved {
      MoveKeepsInv(cfg, s, thread, PollApproved(p.agent, p.id));
    } else {
      DoneKeepsInv(cfg, s, thread);
    }
  }

  /** The first lookup whose failure the handler does not look at: it cannot fail. */
  lemma TenantIsFound(cfg: Config, s: System, thread: nat, agent: string, id: string, root: string)
    requires Tenancy.RootsFiled(s.tenants) && Tenancy.AgentsBound(s.tenants)
    requires id in s.store.byID && Runs.RootIsBound(s.tenants.byAgent, agent, root)
    ensures AdvancePoll(cfg, s, thread, PollApproved(agent, id)) == Move(s, thread, PollTenant(agent, id, root))
  {
    BoundHasTenant(s.tenants, agent, root);
  }

  lemma TenantLookupKeepsInv(cfg: Config, s: System, thread: nat)
    requires Inv(cfg, s) && thread in s.points && s.points[thread].PollApproved?
    ensures var t := AdvancePoll(cfg, s, thread, s.points[thread]);
      Inv(cfg, t) && Later(s, t)
  {
    OwnPoint(cfg, s, thread);
    var p := s.points[thread];
    var root := s.tenants.byAgent[p.agent];
    TenantIsFound(cfg, s, thread, p.agent, p.id, root);
    MoveKeepsInv(cfg, s, thread, PollTenant(p.agent, p.id, root));
  }

  /** Nor can the second. */
  lemma GrantLookupKeepsInv(cfg: Config, s: System, thread: nat)
    requires Inv(cfg, s) && thread in s.points && s.points[thread].PollTenant?
    ensures var t := AdvancePoll(cfg, s, thread, s.points[thread]);
      Inv(cfg, t) && Later(s, t)
  {
    OwnPoint(cfg, s, thread);
    var p := s.points[thread];
    BoundHasTenant(s.tenants, p.agent, p.root);
    BoundIsVetted(cfg, s.tenants, p.agent, p.root);
    MoveKeepsInv(cfg, s, thread, PollGranted(p.agent, p.id, p.root, s.tenants.byRoot[p.root].grants[p.agent]));
  }

  lemma SignatureReadKeepsInv(cfg: Config, s: System, thread: nat, draw: Draw)
    requires Inv(cfg, s) && thread in s.points && s.points[thread].PollGranted?
    ensures var t := AdvanceFinish(cfg, s, thread, s.points[thread], draw);
      Inv(cfg, t) && Later(s, t)
  {
    OwnPoint(cfg, s, thread);
    var p := s.points[thread];
    var e := s.store.byID[p.id];
    BoundHasTenant(s.tenants, p.agent, p.root);
    assert Runs.EntrySigned(cfg.consent, s.tenants.byAgent, e);
    StoredSignatureShows(cfg, s.tenants, e);
    MoveKeepsInv(cfg, s, thread, PollSigned(p.agent, p.id, p.root, p.grant, StepUpFor(cfg, e.terms, e.stepUpSig)));
  }

  /** What Mint returns for the stored request, if it returns anything, is a token in order. */
  lemma MintedIsOk(cfg: Config, st: Runs.Store, ts: Tenancy.Tenants, t: Terms, psa: PSA, g: AgentGrant,
                   stepUp: Option<StepUp>, at: int, jti: string)
    requires OwnApproved(st, t.agentID, t.id) && st.byID[t.id].terms == t
    requires Runs.RootIsBound(ts.byAgent, t.agentID, psa.root) && PsaVetted(cfg, psa)
    requires GrantOf(cfg, ts, t.agentID, psa.root, g) && StepUpRight(cfg, t, psa.root, stepUp)
    requires MintCheck(cfg.consent.c, cfg.key, MintInputFor(cfg, t, psa, psa.root, g, stepUp)).None?
    ensures IssueOk(cfg, st, ts, Issue(t, psa, g, at,
              MintedClaims(cfg.consent.c, MintInputFor(cfg, t, psa, psa.root, g, stepUp), at, jti)))
  {
  }

  lemma MintStepIsOk(cfg: Config, s: System, p: Point, jti: string)
    requires Inv(cfg, s) && p.PollSigned? && PointOk(cfg, s.store, s.tenants, p) && p.id in s.store.byID
    requires p.root in s.tenants.byRoot
    requires MintCheck(cfg.consent.c, cfg.key,
               MintInputFor(cfg, s.store.byID[p.id].terms, s.tenants.byRoot[p.root].psa, p.root, p.grant, p.stepUp)).None?
    ensures var t, psa := s.store.byID[p.id].terms, s.tenants.byRoot[p.root].psa;
      IssueOk(cfg, s.store, s.tenants, Issue(t, psa, p.grant, s.store.now,
        MintedClaims(cfg.consent.c, MintInputFor(cfg, t, psa, p.root, p.grant, p.stepUp), s.store.now, jti)))
  {
    BoundHasTenant(s.tenants, p.agent, p.root);
    BoundIsVetted(cfg, s.tenants, p.agent, p.root);
    MintedIsOk(cfg, s.store, s.tenants, s.store.byID[p.id].terms, s.tenants.byRoot[p.root].psa, p.grant, p.stepUp,
      s.store.now, jti);
  }

  /** The point of a finishing handler, with all its fields. */
  ghost predicate AtMint(s: System, thread: nat, p: Point) {
    thread in s.points && s.points[thread] == p && p.PollSigned? && p.id in s.store.byID && p.root in s.tenants.byRoot
  }

  lemma MintedIssueMoves(cfg: Config, s: System, thread: nat, p: Point, i: Issue, draw: Draw)
    requires AtMint(s, thread, p)
    requires var t, psa := s.store.byID[p.id].terms, s.tenants.byRoot[p.root].psa;
      var input := MintInputFor(cfg, t, psa, p.root, p.grant, p.stepUp);
      && MintCheck(cfg.consent.c, cfg.key, input).None?
      && i == Issue(t, psa, p.grant, s.store.now, MintedClaims(cfg.consent.c, input, s.store.now, draw.jti))
    ensures AdvanceFinish(cfg, s, thread, p, draw) == Move(s.(issued := s.issued + [i]), thread,
              ToLog(p.agent, p.root, LogEntry(cfg, "token_issued", p.id, s.store.now)))
  {
  }

  lemma GrantedMintKeepsInv(cfg: Config, s: System, thread: nat, p: Point, i: Issue)
    requires Inv(cfg, s) && AtMint(s, thread, p) && IssueOk(cfg, s.store, s.tenants, i)
    ensures var t := Move(s.(issued := s.issued + [i]), thread,
        ToLog(p.agent, p.root, LogEntry(cfg, "token_issued", p.id, s.store.now)));
      Inv(cfg, t) && Later(s, t)
  {
    var q := ToLog(p.agent, p.root, LogEntry(cfg, "token_issued", p.id, s.store.now));
    ReadyToLog(cfg, s.store, s.tenants, q);
    IssueThenMove(cfg, s, i, thread, q);
  }

  lemma MintedKeepsInv(cfg: Config, s: System, thread: nat, p: Point, input: MintInput, draw: Draw)
    requires Inv(cfg, s) && AtMint(s, thread, p) && PointOk(cfg, s.store, s.tenants, p)
    requires input == MintInputFor(cfg, s.store.byID[p.id].terms, s.tenants.byRoot[p.root].psa, p.root, p.grant, p.stepUp)
    requires MintCheck(cfg.consent.c, cfg.key, input).None?
    ensures var t := AdvanceFinish(cfg, s, thread, p, draw);
      Inv(cfg, t) && Later(s, t)
  {
    var i := Issue(s.store.byID[p.id].terms, s.tenants.byRoot[p.root].psa, p.grant, s.store.now,
      MintedClaims(cfg.consent.c, input, s.store.now, draw.jti));
    MintStepIsOk(cfg, s, p, draw.jti);
    GrantedMintKeepsInv(cfg, s, thread, p, i);
    MintedIssueMoves(cfg, s, thread, p, i, draw);
  }

  lemma MintKeepsInv(cfg: Config, s: System, thread: nat, draw: Draw)
    requires Inv(cfg, s) && thread in s.points && s.points[thread].PollSigned?
    ensures var t := AdvanceFinish(cfg, s, thread, s.points[thread], draw);
      Inv(cfg, t) && Later(s, t)
  {
    OwnPoint(cfg, s, thread);
    var p := s.points[thread];
    BoundHasTenant(s.tenants, p.agent, p.root);
    var input := MintInputFor(cfg, s.store.byID[p.id].terms, s.tenants.byRoot[p.root].psa, p.root, p.grant, p.stepUp);
    if MintCheck(cfg.consent.c, cfg.key, input).Some? {
      DoneKeepsInv(cfg, s, thread);
    } else {
      MintedKeepsInv(cfg, s, thread, p, input, draw);
    }
  }

  lemma PollAdvanceKeepsInv(cfg: Config, s: System, thread: nat)
    requires Inv(cfg, s) && thread in s.points
    requires var p := s.points[thread]; p.PollFound? || p.PollApproved? || p.PollTenant?
    ensures var t := AdvancePoll(cfg, s, thread, s.points[thread]);
      Inv(cfg, t) && Later(s, t)
  {
    match s.points[thread]
    case PollFound(_, _) => StateReadKeepsInv(cfg, s, thread);
    case PollApproved(_, _) => TenantLookupKeepsInv(cfg, s, thread);
    case PollTenant(_, _, _) => GrantLookupKeepsInv(cfg, s, thread);
  }

  lemma TenancyAdvanceKeepsInv(cfg: Config, s: System, thread: nat)
    requires Inv(cfg, s) && thread in s.points
    requires var p := s.points[thread]; p.OnboardVerified? || p.EnrollFound? || p.EnrollVerified? || p.ToLog?
    ensures var t := AdvanceTenancy(cfg, s, thread, s.points[thread]);
      Inv(cfg, t) && Later(s, t)
  {
    match s.points[thread]
    case OnboardVerified(psa) => OnboardKeepsInv(cfg, s, thread, psa);
    case EnrollFound(agent, thumb, grant) => GrantCheckKeepsInv(cfg, s, thread, agent, thumb, grant);
    case EnrollVerified(agent, grant) => EnrollKeepsInv(cfg, s, thread, agent, grant);
    case ToLog(agent, root, entry) => LogKeepsInv(cfg, s, thread, agent, root, entry);
  }

  lemma TokenAdvanceKeepsInv(cfg: Config, s: System, thread: nat, draw: Draw)
    requires Inv(cfg, s) && Inverts(cfg.codec) && thread in s.points
    requires var p := s.points[thread]; p.TokenTenant? || p.TokenGranted? || p.TokenTiered?
    ensures var t := AdvanceToken(cfg, s, thread, s.points[thread], draw);
      Inv(cfg, t) && Later(s, t)
  {
    match s.points[thread]
    case TokenTenant(_, _, _, _) => GrantReadKeepsInv(cfg, s, thread, draw);
    case TokenGranted(_, _, _, _) => TierReadKeepsInv(cfg, s, thread, draw);
    case TokenTiered(_, _, _, _, _) => RequestKeepsInv(cfg, s, thread, draw);
  }

  lemma FinishAdvanceKeepsInv(cfg: Config, s: System, thread: nat, draw: Draw)
    requires Inv(cfg, s) && thread in s.points
    requires var p := s.points[thread]; p.PollGranted? || p.PollSigned?
    ensures var t := AdvanceFinish(cfg, s, thread, s.points[thread], draw);
      Inv(cfg, t) && Later(s, t)
  {
    match s.points[thread]
    case PollGranted(_, _, _, _) => SignatureReadKeepsInv(cfg, s, thread, draw);
    case PollSigned(_, _, _, _, _) => MintKeepsInv(cfg, s, thread, draw);
  }

  lemma AdvanceKeepsInv(cfg: Config, s: System, thread: nat, draw: Draw)
    requires Inv(cfg, s) && Inverts(cfg.codec)
    ensures var t := DoAdvance(cfg, s, thread, draw);
      Inv(cfg, t) && Later(s, t)
  {
    if thread !in s.points {
      StandingStill(s);
    } else {
      var p := s.points[thread];
      if p.OnboardVerified? || p.EnrollFound? || p.EnrollVerified? || p.ToLog? {
        TenancyAdvanceKeepsInv(cfg, s, thread);
      } else if p.TokenTenant? || p.TokenGranted? || p.TokenTiered? {
        TokenAdvanceKeepsInv(cfg, s, thread, draw);
      } else if p.PageFound? || p.StepUpFound? || p.StepUpCall? {
        ApprovalAdvanceKeepsInv(cfg, s, thread);
        ApprovalAdvances(cfg, s, thread, p, draw);
      } else if p.PollGranted? || p.PollSigned? {
        FinishAdvanceKeepsInv(cfg, s, thread, draw);
        FinishAdvances(cfg, s, thread, p, draw);
      } else {
        PollAdvanceKeepsInv(cfg, s, thread);
        PollAdvances(cfg, s, thread, p, draw);
      }
    }
  }

  lemma RevokeKeepsInv(cfg: Config, s: System, root: string, nonce: nat)
    requires Inv(cfg, s)
    ensures var t := Step(cfg, s, Revoke(root, nonce));
      Inv(cfg, t) && Later(s, t)
  {
    StandingStill(s);
  }

  /** Every step of every thread keeps the invariant and takes nothing away. */
  lemma StepKeepsInv(cfg: Config, s: System, a: Action)
    requires Inv(cfg, s) && Inverts(cfg.codec)
    ensures Inv(cfg, Step(cfg, s, a)) && Later(s, Step(cfg, s, a))
  {
    match a
    case Tick(elapsed) => CallStoreKeepsInv(cfg, s, Runs.Tick(elapsed));
    case Revoke(root, nonce) => RevokeKeepsInv(cfg, s, root, nonce);
    case Begin(thread, call) => BeginKeepsInv(cfg, s, thread, call);
    case Advance(thread, draw) => AdvanceKeepsInv(cfg, s, thread, draw);
    case StoreAdvance(thread) => CallStoreKeepsInv(cfg, s, Runs.Advance(thread));
  }

  lemma LaterTransitively(s: System, t: System, u: System)
    requires Later(s, t) && Later(t, u)
    ensures Later(s, u)
  {
  }

  lemma {:induction false} RunKeepsInv(cfg: Config, s: System, actions: seq<Action>)
    requires Inv(cfg, s) && Inverts(cfg.codec)
    ensures var t := Run(cfg, s, actions);
      Inv(cfg, t) && Later(s, t)
    decreases |actions|
  {
    if actions == [] {
      StandingStill(s);
    } else {
      var t := Step(cfg, s, actions[0]);
      StepKeepsInv(cfg, s, actions[0]);
      RunKeepsInv(cfg, t, actions[1..]);
      LaterTransitively(s, t, Run(cfg, t, actions[1..]));
    }
  }

  lemma BootHoldsInv(cfg: Config, now: int)
    ensures Inv(cfg, Boot(now))
  {
  }
}
