// internal/server: every handler as a thread over the shared stores, cut wherever it takes a lock or reads a field
// another handler may change. A tenant pointer is its root and a request pointer its id, for neither is ever reused.
module Server {
  import opened Attest
  import opened Base64
  import opened Basics
  import opened Consent
  import Runs = ConsentRuns
  import opened Crypto
  import Json
  import Missions
  import Revocation
  import Tenancy
  import opened Text
  import opened Tokens

  datatype Config = Config(
    consent: Runs.Config,
    codec: Codec,
    issuerURL: string,
    key: IssuerKey,
    otherKeys: seq<IssuerKey>,
    // the RFC 3339 text of an instant
    stamp: int -> string
  )

  /** A request as it enters, after its signature was checked: the agent and its key thumbprint are known. */
  datatype Call =
    | Onboard(psa: PSA)
    | EnrollAgent(agent: string, thumb: string, grant: AgentGrant)
    | Token(agent: string, thumb: string, resourceToken: string)
    | PollPending(agent: string, id: string)
    | ApprovePage(code: string)
    | StepUpPage(code: string, sig: Bytes)
    | DenyCall(code: string)

  /** Where a handler stands, with what it holds in local variables. */
  datatype Point =
    | OnboardVerified(psa: PSA)
    | EnrollFound(agent: string, thumb: string, grant: AgentGrant)
    | EnrollVerified(agent: string, grant: AgentGrant)
    | TokenTenant(agent: string, root: string, thumb: string, resourceToken: string)
    | TokenGranted(agent: string, root: string, grant: AgentGrant, res: ResourceClaims)
    | TokenTiered(agent: string, root: string, grant: AgentGrant, res: ResourceClaims, tier: Tier)
    | PollFound(agent: string, id: string)
    | PollApproved(agent: string, id: string)
    | PollTenant(agent: string, id: string, root: string)
    | PollGranted(agent: string, id: string, root: string, grant: AgentGrant)
    | PollSigned(agent: string, id: string, root: string, grant: AgentGrant, stepUp: Option<StepUp>)
    | ToLog(agent: string, root: string, entry: Missions.Entry)
    | PageFound(code: string, id: string)
    | StepUpFound(code: string, id: string, sig: Bytes)
    | StepUpCall(code: string, root: string, sig: Bytes)

  /** A token handed out: for which request, under which PSA and grant, when, and with which claims. */
  datatype Issue = Issue(terms: Terms, psa: PSA, grant: AgentGrant, at: int, claims: AuthClaims)

  /** An enrolment that went through. */
  datatype Enrolment = Enrolment(agent: string, grant: AgentGrant)

  datatype System = System(
    store: Runs.Store,
    tenants: Tenancy.Tenants,
    revoked: set<string>,
    points: map<nat, Point>,
    issued: seq<Issue>,
    enrolled: seq<Enrolment>,
    // a nil pointer was followed
    fault: bool
  )

  /** The random values a step may draw. */
  datatype Draw = Draw(id: string, code: string, jti: string)

  datatype Action =
    | Tick(elapsed: nat)
    | Revoke(root: string, nonce: nat)
    | Begin(thread: nat, call: Call)
    | Advance(thread: nat, draw: Draw)
    | StoreAdvance(thread: nat)

  function Boot(now: int): System {
    System(Runs.Empty(now), Tenancy.EMPTY, {}, map[], [], [], false)
  }

  /** Every key of this server; the first is the one it signs with. */
  function IssuerKeys(cfg: Config): seq<IssuerKey> {
    [cfg.key] + cfg.otherKeys
  }

  function Thumbprints(c: Primitives, keys: seq<IssuerKey>): seq<string> {
    seq(|keys|, i requires 0 <= i < |keys| => Thumbprint(c, keys[i].pub))
  }

  function KeyThumbs(cfg: Config): seq<string> {
    Thumbprints(cfg.consent.c, IssuerKeys(cfg))
  }

  function Move(s: System, thread: nat, p: Point): System {
    s.(points := s.points[thread := p])
  }

  function Done(s: System, thread: nat): System {
    s.(points := s.points - {thread})
  }

  // ---------------------------------------------------------------- handler steps

  /** The claims of a resource token, read without checking the resource's own signature. */
  function ParseResourceToken(cfg: Config, raw: string): Option<ResourceClaims> {
    var (_, payload, _) :- Split3(raw);
    var b :- Decode(UrlSafe, payload);
    var rc :- cfg.codec.resource(b);
    if rc.iss == "" then None else Some(rc)
  }

  /** The claims that a resource token was made from are read back, unless they name no resource. */
  lemma ResourceTokenIsRead(cfg: Config, header: Bytes, rc: ResourceClaims, sig: Bytes)
    requires Inverts(cfg.codec)
    ensures ParseResourceToken(cfg, Compact(header, Json.Marshal(ResourceJson(rc)), sig))
      == if rc.iss == "" then None else Some(rc)
  {
    var b := Json.Marshal(ResourceJson(rc));
    CompactRoundTrip(header, b, sig);
    assert cfg.codec.resource(b) == Some(rc);
  }

  /** The claims kept with a request; unreadable bytes leave them all empty. */
  function ResourceOf(cfg: Config, t: Terms): ResourceClaims {
    match cfg.codec.resource(t.resourceJSON)
    case Some(rc) => rc
    case None => ResourceClaims("", "", 0, 0, Nil, "")
  }

  const CONSENT_WINDOW: int := 600 * NANOS_PER_SECOND

  function NewTerms(agent: string, grant: AgentGrant, res: ResourceClaims, tier: Tier, now: int, draw: Draw): Terms {
    Terms(draw.id, draw.code, agent, res.iss, res.amountWei, res.scope, grant.missionScopeS256, tier,
      now, now + CONSENT_WINDOW, Json.Marshal(ResourceJson(res)))
  }

  function LogEntry(cfg: Config, kind: string, requestID: string, now: int): Missions.Entry {
    Missions.Entry(kind, requestID, cfg.stamp(now), "", "")
  }

  function HexStr(b: Bytes): string {
    "0x" + HexEncode(b)
  }

  /** The step_up claim for a stored signature; a digest that cannot be computed reads as zeros. */
  function StepUpFor(cfg: Config, t: Terms, sig: Bytes): Option<StepUp> {
    if sig == [] then None
    else
      var d := ApprovalDigest(cfg.consent.c, t, cfg.consent.chainID, cfg.consent.registry);
      Some(StepUp(HexStr(if d.Some? then d.value else seq(32, _ => 0)), HexStr(sig)))
  }

  function MintInputFor(cfg: Config, t: Terms, psa: PSA, root: string, grant: AgentGrant, stepUp: Option<StepUp>)
    : MintInput
  {
    MintInput(psa, cfg.issuerURL + "/psa/" + root, grant, ResourceOf(cfg, t), t.agentID,
      JWK("OKP", "Ed25519", grant.agentPubKey),
      Some(MissionRef(cfg.issuerURL, grant.missionScopeS256)), stepUp, map[], HOUR)
  }

  /** The PSA served for a root, and the grant served for a content hash. */
  function PsaPage(ts: Tenancy.Tenants, root: string): Option<PSA> {
    if root in ts.byRoot then Some(ts.byRoot[root].psa) else None
  }

  function GrantPage(ts: Tenancy.Tenants, s256: string): Option<AgentGrant> {
    if s256 in ts.byGrantS256 then Some(ts.byGrantS256[s256]) else None
  }

  function CallStore(cfg: Config, s: System, a: Runs.Action): System {
    s.(store := Runs.Step(cfg.consent, s.store, a))
  }

  function DoBegin(cfg: Config, s: System, thread: nat, call: Call): System {
    if thread in s.points || thread in s.store.threads then s
    else
      match call
      case Onboard(psa) =>
        var error := Tenancy.OnboardCheck(cfg.consent.c, Revocation.View(s.revoked), s.store.now, psa,
                       cfg.issuerURL, KeyThumbs(cfg));
        if error.None? then Move(s, thread, OnboardVerified(psa)) else s
      case EnrollAgent(agent, thumb, grant) =>
        if grant.root in s.tenants.byRoot then Move(s, thread, EnrollFound(agent, thumb, grant)) else s
      case Token(agent, thumb, resourceToken) => (
        match Tenancy.ByAgent(s.tenants, agent)
        case None => s
        case Some(t) => Move(s, thread, TokenTenant(agent, t.root, thumb, resourceToken)))
      case PollPending(agent, id) =>
        var s' := CallStore(cfg, s, Runs.Poll(id));
        if id in s'.store.byID && s'.store.byID[id].terms.agentID == agent
        then Move(s', thread, PollFound(agent, id)) else s'
      case ApprovePage(code) =>
        if code in s.store.byCode then Move(s, thread, PageFound(code, s.store.byCode[code])) else s
      case StepUpPage(code, sig) =>
        if code in s.store.byCode then Move(s, thread, StepUpFound(code, s.store.byCode[code], sig)) else s
      case DenyCall(code) => CallStore(cfg, s, Runs.Start(thread, Runs.Deny(code)))
  }

  function AdvanceTenancy(cfg: Config, s: System, thread: nat, p: Point): System
    requires p.OnboardVerified? || p.EnrollFound? || p.EnrollVerified? || p.ToLog?
  {
    match p
    case OnboardVerified(psa) =>
      Done(s.(tenants := Tenancy.Onboard(s.tenants, Tenancy.NewTenant(psa))), thread)
    case EnrollFound(agent, thumb, grant) =>
      var refusal := VerifyAgentGrant(cfg.consent.c, Revocation.View(s.revoked), s.store.now, grant,
                       grant.root, agent, thumb);
      if refusal.None? then Move(s, thread, EnrollVerified(agent, grant)) else Done(s, thread)
    case EnrollVerified(agent, grant) =>
      if grant.root !in s.tenants.byRoot then Done(s.(fault := true), thread)
      else (
        match Tenancy.Enroll(cfg.consent.c, s.tenants, agent, grant.root, grant)
        case None => Done(s, thread)
        case Some(tenants) =>
          Move(s.(tenants := tenants, enrolled := s.enrolled + [Enrolment(agent, grant)]), thread,
            ToLog(agent, grant.root, LogEntry(cfg, "agent_enrolled", "", s.store.now))))
    case ToLog(agent, root, entry) =>
      Done(s.(tenants := Tenancy.AppendLog(cfg.consent.c, s.tenants, root, agent, entry)), thread)
  }

  function AdvanceToken(cfg: Config, s: System, thread: nat, p: Point, draw: Draw): System
    requires p.TokenTenant? || p.TokenGranted? || p.TokenTiered?
  {
    if p.root !in s.tenants.byRoot then Done(s.(fault := true), thread)
    else
      var t := s.tenants.byRoot[p.root];
      match p
      case TokenTenant(agent, root, thumb, resourceToken) =>
        var res := ParseResourceToken(cfg, resourceToken);
        if && agent in t.grants && t.grants[agent].agentThumbprint == thumb
           && res.Some? && t.grants[agent].missionScopeS256 != ""
        then Move(s, thread, TokenGranted(agent, root, t.grants[agent], res.value))
        else Done(s, thread)
      case TokenGranted(agent, root, grant, res) =>
        Move(s, thread, TokenTiered(agent, root, grant, res, TierFor(t.psa.scope, res.amountWei)))
      case TokenTiered(agent, root, grant, res, tier) =>
        if draw.id in s.store.byID || draw.code in s.store.byCode then s
        else
          var terms := NewTerms(agent, grant, res, tier, s.store.now, draw);
          Move(CallStore(cfg, s, Runs.Create(terms)), thread,
            ToLog(agent, root, LogEntry(cfg, "token_request", draw.id, s.store.now)))
  }

  function AdvancePoll(cfg: Config, s: System, thread: nat, p: Point): System
    requires p.PollFound? || p.PollApproved? || p.PollTenant?
  {
    if p.id !in s.store.byID then Done(s.(fault := true), thread)
    else
      match p
      case PollFound(agent, id) =>
        if s.store.byID[id].state == Approved then Move(s, thread, PollApproved(agent, id)) else Done(s, thread)
      case PollApproved(agent, id) => (
        match Tenancy.ByAgent(s.tenants, agent)
        case None => Done(s.(fault := true), thread)
        case Some(t) => Move(s, thread, PollTenant(agent, id, t.root)))
      case PollTenant(agent, id, root) =>
        if Tenancy.HoldsGrant(s.tenants, root, agent)
        then Move(s, thread, PollGranted(agent, id, root, s.tenants.byRoot[root].grants[agent]))
        else Done(s.(fault := true), thread)
  }

  /** `finish`: the stored signature is read, then the tenant's PSA; the token is minted from what was read. */
  function AdvanceFinish(cfg: Config, s: System, thread: nat, p: Point, draw: Draw): System
    requires p.PollGranted? || p.PollSigned?
  {
    if p.id !in s.store.byID || p.root !in s.tenants.byRoot then Done(s.(fault := true), thread)
    else
      var e := s.store.byID[p.id];
      match p
      case PollGranted(agent, id, root, grant) =>
        Move(s, thread, PollSigned(agent, id, root, grant, StepUpFor(cfg, e.terms, e.stepUpSig)))
      case PollSigned(agent, id, root, grant, stepUp) =>
        var psa := s.tenants.byRoot[root].psa;
        var input := MintInputFor(cfg, e.terms, psa, root, grant, stepUp);
        if MintCheck(cfg.consent.c, cfg.key, input).Some? then Done(s, thread)
        else
          var claims := MintedClaims(cfg.consent.c, input, s.store.now, draw.jti);
          Move(s.(issued := s.issued + [Issue(e.terms, psa, grant, s.store.now, claims)]), thread,
            ToLog(agent, root, LogEntry(cfg, "token_issued", id, s.store.now)))
  }

  function AdvanceApproval(cfg: Config, s: System, thread: nat, p: Point): System
    requires p.PageFound? || p.StepUpFound? || p.StepUpCall?
  {
    match p
    case PageFound(code, id) =>
      if id !in s.store.byID then Done(s.(fault := true), thread)
      else if s.store.byID[id].terms.tier == Elevated then Done(s, thread)
      else Done(CallStore(cfg, s, Runs.Start(thread, Runs.ApproveRoutine(code))), thread)
    case StepUpFound(code, id, sig) =>
      if id !in s.store.byID then Done(s.(fault := true), thread)
      else (
        match Tenancy.ByAgent(s.tenants, s.store.byID[id].terms.agentID)
        case None => Done(s, thread)
        case Some(t) => Move(s, thread, StepUpCall(code, t.root, sig)))
    case StepUpCall(code, root, sig) =>
      Done(CallStore(cfg, s, Runs.Start(thread, Runs.ApproveElevated(code, root, sig))), thread)
  }

  function DoAdvance(cfg: Config, s: System, thread: nat, draw: Draw): System {
    if thread !in s.points then s
    else
      var p := s.points[thread];
      if p.OnboardVerified? || p.EnrollFound? || p.EnrollVerified? || p.ToLog? then AdvanceTenancy(cfg, s, thread, p)
      else if p.TokenTenant? || p.TokenGranted? || p.TokenTiered? then AdvanceToken(cfg, s, thread, p, draw)
      else if p.PageFound? || p.StepUpFound? || p.StepUpCall? then AdvanceApproval(cfg, s, thread, p)
      else if p.PollGranted? || p.PollSigned? then AdvanceFinish(cfg, s, thread, p, draw)
      else AdvancePoll(cfg, s, thread, p)
  }

  /** The server after a token handler has filed its request. */
  function RequestFiledBy(cfg: Config, s: System, thread: nat, p: Point, draw: Draw): System
    requires p.TokenTiered?
  {
    var terms := NewTerms(p.agent, p.grant, p.res, p.tier, s.store.now, draw);
    Move(CallStore(cfg, s, Runs.Create(terms)), thread,
      ToLog(p.agent, p.root, LogEntry(cfg, "token_request", draw.id, s.store.now)))
  }

  lemma RequestStep(cfg: Config, s: System, thread: nat, p: Point, draw: Draw)
    requires p.TokenTiered? && p.root in s.tenants.byRoot
    requires draw.id !in s.store.byID && draw.code !in s.store.byCode
    ensures AdvanceToken(cfg, s, thread, p, draw) == RequestFiledBy(cfg, s, thread, p, draw)
  {
  }

  lemma OnboardBegins(cfg: Config, s: System, thread: nat, psa: PSA)
    ensures DoBegin(cfg, s, thread, Onboard(psa)) in {s, Move(s, thread, OnboardVerified(psa))}
  {
  }

  lemma ApprovalAdvances(cfg: Config, s: System, thread: nat, p: Point, draw: Draw)
    requires thread in s.points && s.points[thread] == p && (p.PageFound? || p.StepUpFound? || p.StepUpCall?)
    ensures DoAdvance(cfg, s, thread, draw) == AdvanceApproval(cfg, s, thread, p)
  {
    var t := AdvanceApproval(cfg, s, thread, p);
    assert DoAdvance(cfg, s, thread, draw) == t;
  }

  lemma PollAdvances(cfg: Config, s: System, thread: nat, p: Point, draw: Draw)
    requires thread in s.points && s.points[thread] == p && (p.PollFound? || p.PollApproved? || p.PollTenant?)
    ensures DoAdvance(cfg, s, thread, draw) == AdvancePoll(cfg, s, thread, p)
  {
    var t := AdvancePoll(cfg, s, thread, p);
    assert DoAdvance(cfg, s, thread, draw) == t;
  }

  lemma FinishAdvances(cfg: Config, s: System, thread: nat, p: Point, draw: Draw)
    requires thread in s.points && s.points[thread] == p && (p.PollGranted? || p.PollSigned?)
    ensures DoAdvance(cfg, s, thread, draw) == AdvanceFinish(cfg, s, thread, p, draw)
  {
    var t := AdvanceFinish(cfg, s, thread, p, draw);
    assert DoAdvance(cfg, s, thread, draw) == t;
  }

  function Step(cfg: Config, s: System, a: Action): System {
    match a
    case Tick(elapsed) => CallStore(cfg, s, Runs.Tick(elapsed))
    case Revoke(root, nonce) => s.(revoked := Revocation.Revoke(s.revoked, root, nonce))
    case Begin(thread, call) => DoBegin(cfg, s, thread, call)
    case Advance(thread, draw) => DoAdvance(cfg, s, thread, draw)
    case StoreAdvance(thread) => CallStore(cfg, s, Runs.Advance(thread))
  }

  function Run(cfg: Config, s: System, actions: seq<Action>): System
    decreases |actions|
  {
    if actions == [] then s else Run(cfg, Step(cfg, s, actions[0]), actions[1..])
  }
}
