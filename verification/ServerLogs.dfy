// The mission logs of the person server as its books: over every run each log holds exactly one entry for each thing
// that happened, and no other.
module ServerLogs {
  import opened Attest
  import opened Basics
  import opened Consent
  import Runs = ConsentRuns
  import opened Crypto
  import Missions
  import Revocation
  import opened Server
  import opened ServerRuns
  import ServerGuarantees
  import Tenancy
  import opened Tokens

  /** Entries of one kind for one request, in the log of an agent at the tenant of a root. */
  datatype Line = Line(agent: string, root: string, kind: string, id: string)

  function One(b: bool): nat {
    if b then 1 else 0
  }

  function Entries(chain: seq<Missions.Entry>, l: Line): nat
    decreases |chain|
  {
    if chain == [] then 0
    else
      var e := chain[|chain| - 1];
      Entries(chain[..|chain| - 1], l) + One(e.kind == l.kind && e.requestID == l.id)
  }

  /** How many such entries there are. */
  function InLog(ts: Tenancy.Tenants, l: Line): nat {
    if l.root in ts.byRoot then Entries(Missions.ChainOf(ts.byRoot[l.root].log, l.agent), l) else 0
  }

  predicate Logs(p: Point, l: Line) {
    p.ToLog? && p.agent == l.agent && p.root == l.root && p.entry.kind == l.kind && p.entry.requestID == l.id
  }

  ghost function Loggers(points: map<nat, Point>, l: Line): set<nat> {
    set n | n in points && Logs(points[n], l)
  }

  /** How many handlers have appending such an entry as their next step. */
  ghost function AboutToLog(points: map<nat, Point>, l: Line): nat {
    |Loggers(points, l)|
  }

  // ---------------------------------------------------------------- what there should be

  function Issues(issued: seq<Issue>, l: Line): nat
    decreases |issued|
  {
    if issued == [] then 0
    else
      var i := issued[|issued| - 1];
      Issues(issued[..|issued| - 1], l) + One(i.terms.agentID == l.agent && i.psa.root == l.root && i.terms.id == l.id)
  }

  function Enrolments(enrolled: seq<Enrolment>, l: Line): nat
    decreases |enrolled|
  {
    if enrolled == [] then 0
    else
      var e := enrolled[|enrolled| - 1];
      Enrolments(enrolled[..|enrolled| - 1], l) + One(e.agent == l.agent && e.grant.root == l.root)
  }

  /** One, if there is such a request of this agent and the agent is bound to this root. */
  ghost function Requests(s: System, l: Line): nat {
    One(&& l.id in s.store.byID && s.store.byID[l.id].terms.agentID == l.agent
        && Runs.RootIsBound(s.tenants.byAgent, l.agent, l.root))
  }

  const TOKEN_ISSUED := "token_issued"
  const TOKEN_REQUEST := "token_request"
  const AGENT_ENROLLED := "agent_enrolled"

  /** One entry per token handed out, per request filed and per enrolment that went through, and no other entries. */
  ghost function Expected(s: System, l: Line): nat {
    if l.kind == TOKEN_ISSUED then Issues(s.issued, l)
    else if l.kind == TOKEN_REQUEST then Requests(s, l)
    else if l.kind == AGENT_ENROLLED && l.id == "" then Enrolments(s.enrolled, l)
    else 0
  }

  ghost predicate Balanced(s: System, l: Line) {
    InLog(s.tenants, l) + AboutToLog(s.points, l) == Expected(s, l)
  }

  // ---------------------------------------------------------------- one thread moves

  lemma CountWithout(a: set<nat>, n: nat)
    ensures |a| == |a - {n}| + One(n in a)
  {
    if n !in a {
      assert a - {n} == a;
    }
  }

  lemma OtherLoggersStay(points: map<nat, Point>, after: map<nat, Point>, thread: nat, l: Line)
    requires after - {thread} == points - {thread}
    ensures Loggers(points, l) - {thread} <= Loggers(after, l) - {thread}
  {
    forall n | n in Loggers(points, l) && n != thread
      ensures n in Loggers(after, l)
    {
      assert n in points - {thread} && (points - {thread})[n] == (after - {thread})[n];
    }
  }

  lemma PointsMove(points: map<nat, Point>, after: map<nat, Point>, thread: nat, l: Line)
    requires after - {thread} == points - {thread}
    ensures AboutToLog(after, l) + One(thread in points && Logs(points[thread], l))
         == AboutToLog(points, l) + One(thread in after && Logs(after[thread], l))
  {
    OtherLoggersStay(points, after, thread, l);
    OtherLoggersStay(after, points, thread, l);
    assert Loggers(points, l) - {thread} == Loggers(after, l) - {thread};
    CountWithout(Loggers(points, l), thread);
    CountWithout(Loggers(after, l), thread);
  }

  /** What the step of one thread adds to the books: entries appended, and things that should have one. */
  ghost predicate Posts(s: System, t: System, thread: nat, l: Line, appended: nat, owed: nat) {
    && t.points - {thread} == s.points - {thread}
    && InLog(t.tenants, l) == InLog(s.tenants, l) + appended
    && Expected(t, l) == Expected(s, l) + owed
    && appended + One(thread in t.points && Logs(t.points[thread], l))
         == owed + One(thread in s.points && Logs(s.points[thread], l))
  }

  lemma PostingBalances(s: System, t: System, thread: nat, l: Line, appended: nat, owed: nat)
    requires Balanced(s, l) && Posts(s, t, thread, l, appended, owed)
    ensures Balanced(t, l)
  {
    PointsMove(s.points, t.points, thread, l);
  }

  lemma AppendedEntry(c: Primitives, ts: Tenancy.Tenants, agent: string, root: string, e: Missions.Entry, l: Line)
    requires root in ts.byRoot
    ensures InLog(Tenancy.AppendLog(c, ts, root, agent, e), l)
      == InLog(ts, l) + One(l.agent == agent && l.root == root && e.kind == l.kind && e.requestID == l.id)
  {
    var chain := Missions.ChainOf(ts.byRoot[root].log, agent);
    var more := Missions.Appended(c, chain, e);
    assert more[..|more| - 1] == chain;
  }

  lemma OnboardLogsNothing(ts: Tenancy.Tenants, t: Tenancy.Tenant, l: Line)
    requires t.log == map[]
    ensures InLog(Tenancy.Onboard(ts, t), l) == InLog(ts, l)
  {
  }

  lemma EnrollLogsNothing(c: Primitives, ts: Tenancy.Tenants, agent: string, root: string, g: AgentGrant, l: Line)
    requires root in ts.byRoot && Tenancy.Enroll(c, ts, agent, root, g).Some?
    ensures InLog(Tenancy.Enroll(c, ts, agent, root, g).value, l) == InLog(ts, l)
  {
  }

  // ---------------------------------------------------------------- every step keeps the books

  /** Requests keep their agents, and an agent with a request is bound already. */
  ghost predicate SameRequests(s: System, t: System) {
    && t.store.byID.Keys == s.store.byID.Keys
    && (forall id :: id in s.store.byID ==> t.store.byID[id].terms == s.store.byID[id].terms)
  }

  /** A step that neither appends nor owes an entry. */
  lemma QuietStep(s: System, t: System, thread: nat, l: Line)
    requires Balanced(s, l) && t.points - {thread} == s.points - {thread}
    requires thread in s.points ==> !s.points[thread].ToLog?
    requires thread in t.points ==> !t.points[thread].ToLog?
    requires SameRequests(s, t) && t.tenants.byAgent == s.tenants.byAgent
    requires t.issued == s.issued && t.enrolled == s.enrolled && InLog(t.tenants, l) == InLog(s.tenants, l)
    ensures Balanced(t, l)
  {
    PostingBalances(s, t, thread, l, 0, 0);
  }

  /** A step that does no more than move on. */
  lemma QuietMove(s: System, t: System, thread: nat, l: Line)
    requires Balanced(s, l) && t == s.(points := t.points, fault := t.fault) && t.points - {thread} == s.points - {thread}
    requires thread in s.points ==> !s.points[thread].ToLog?
    requires thread in t.points ==> !t.points[thread].ToLog?
    ensures Balanced(t, l)
  {
    QuietStep(s, t, thread, l);
  }

  lemma StoreCallKeepsRequests(cfg: Config, s: System, a: Runs.Action)
    requires !a.Create?
    ensures SameRequests(s, CallStore(cfg, s, a))
  {
    if a.Advance? {
      Runs.AdvanceFrame(cfg.consent, s.store, a.thread);
    }
  }

  lemma StoreStepKeepsBalanced(cfg: Config, s: System, a: Runs.Action, l: Line)
    requires Balanced(s, l) && !a.Create?
    ensures Balanced(CallStore(cfg, s, a), l)
  {
    StoreCallKeepsRequests(cfg, s, a);
  }

  lemma PollCallKeepsBalanced(cfg: Config, s: System, thread: nat, agent: string, id: string, l: Line)
    requires Balanced(s, l) && thread !in s.points && thread !in s.store.threads
    ensures Balanced(DoBegin(cfg, s, thread, PollPending(agent, id)), l)
  {
    StoreStepKeepsBalanced(cfg, s, Runs.Poll(id), l);
    QuietMove(CallStore(cfg, s, Runs.Poll(id)), DoBegin(cfg, s, thread, PollPending(agent, id)), thread, l);
  }

  lemma OnboardCallKeepsBalanced(cfg: Config, s: System, thread: nat, psa: PSA, l: Line)
    requires Balanced(s, l) && thread !in s.points
    ensures Balanced(DoBegin(cfg, s, thread, Onboard(psa)), l)
  {
    OnboardBegins(cfg, s, thread, psa);
    QuietMove(s, Move(s, thread, OnboardVerified(psa)), thread, l);
  }

  lemma EnrollCallKeepsBalanced(cfg: Config, s: System, thread: nat, agent: string, thumb: string, g: AgentGrant, l: Line)
    requires Balanced(s, l) && thread !in s.points
    ensures Balanced(DoBegin(cfg, s, thread, EnrollAgent(agent, thumb, g)), l)
  {
    QuietMove(s, DoBegin(cfg, s, thread, EnrollAgent(agent, thumb, g)), thread, l);
  }

  lemma TokenCallKeepsBalanced(cfg: Config, s: System, thread: nat, agent: string, thumb: string, resourceToken: string,
                               l: Line)
    requires Balanced(s, l) && thread !in s.points
    ensures Balanced(DoBegin(cfg, s, thread, Token(agent, thumb, resourceToken)), l)
  {
    QuietMove(s, DoBegin(cfg, s, thread, Token(agent, thumb, resourceToken)), thread, l);
  }

  lemma ConsentCallKeepsBalanced(cfg: Config, s: System, thread: nat, call: Call, l: Line)
    requires Balanced(s, l) && thread !in s.points && (call.ApprovePage? || call.StepUpPage? || call.DenyCall?)
    ensures Balanced(DoBegin(cfg, s, thread, call), l)
  {
    QuietStep(s, DoBegin(cfg, s, thread, call), thread, l);
  }

  lemma BeginKeepsBalanced(cfg: Config, s: System, thread: nat, call: Call, l: Line)
    requires Balanced(s, l)
    ensures Balanced(DoBegin(cfg, s, thread, call), l)
  {
    if thread !in s.points && thread !in s.store.threads {
      match call
      case PollPending(agent, id) => PollCallKeepsBalanced(cfg, s, thread, agent, id, l);
      case Onboard(psa) => OnboardCallKeepsBalanced(cfg, s, thread, psa, l);
      case EnrollAgent(agent, thumb, g) => EnrollCallKeepsBalanced(cfg, s, thread, agent, thumb, g, l);
      case Token(agent, thumb, resourceToken) => TokenCallKeepsBalanced(cfg, s, thread, agent, thumb, resourceToken, l);
      case _ => ConsentCallKeepsBalanced(cfg, s, thread, call, l);
    }
  }

  lemma OnboardKeepsBalanced(cfg: Config, s: System, thread: nat, psa: PSA, l: Line)
    requires Balanced(s, l) && thread in s.points && s.points[thread] == OnboardVerified(psa)
    ensures Balanced(AdvanceTenancy(cfg, s, thread, OnboardVerified(psa)), l)
  {
    OnboardLogsNothing(s.tenants, Tenancy.NewTenant(psa), l);
    QuietStep(s, AdvanceTenancy(cfg, s, thread, OnboardVerified(psa)), thread, l);
  }

  lemma CheckKeepsBalanced(cfg: Config, s: System, thread: nat, p: Point, l: Line)
    requires Balanced(s, l) && thread in s.points && s.points[thread] == p && p.EnrollFound?
    ensures Balanced(AdvanceTenancy(cfg, s, thread, p), l)
  {
    QuietMove(s, AdvanceTenancy(cfg, s, thread, p), thread, l);
  }

  lemma EnrolledKeepsBalanced(c: Primitives, s: System, thread: nat, e: Enrolment, entry: Missions.Entry, l: Line)
    requires Balanced(s, l) && thread in s.points && !s.points[thread].ToLog?
    requires forall id :: id in s.store.byID ==> s.store.byID[id].terms.agentID in s.tenants.byAgent
    requires e.grant.root in s.tenants.byRoot && Tenancy.Enroll(c, s.tenants, e.agent, e.grant.root, e.grant).Some?
    requires entry.kind == AGENT_ENROLLED && entry.requestID == ""
    ensures var ts := Tenancy.Enroll(c, s.tenants, e.agent, e.grant.root, e.grant).value;
      Balanced(Move(s.(tenants := ts, enrolled := s.enrolled + [e]), thread, ToLog(e.agent, e.grant.root, entry)), l)
  {
    var ts := Tenancy.Enroll(c, s.tenants, e.agent, e.grant.root, e.grant).value;
    var t := Move(s.(tenants := ts, enrolled := s.enrolled + [e]), thread, ToLog(e.agent, e.grant.root, entry));
    EnrollLogsNothing(c, s.tenants, e.agent, e.grant.root, e.grant, l);
    assert t.enrolled[..|t.enrolled| - 1] == s.enrolled;
    assert Requests(t, l) == Requests(s, l);
    PostingBalances(s, t, thread, l, 0, One(l == Line(e.agent, e.grant.root, AGENT_ENROLLED, "")));
  }

  lemma EnrollKeepsBalanced(cfg: Config, s: System, thread: nat, agent: string, g: AgentGrant, l: Line)
    requires Balanced(s, l) && thread in s.points && s.points[thread] == EnrollVerified(agent, g)
    requires forall id :: id in s.store.byID ==> s.store.byID[id].terms.agentID in s.tenants.byAgent
    ensures Balanced(AdvanceTenancy(cfg, s, thread, EnrollVerified(agent, g)), l)
  {
    if g.root !in s.tenants.byRoot || Tenancy.Enroll(cfg.consent.c, s.tenants, agent, g.root, g).None? {
      QuietStep(s, AdvanceTenancy(cfg, s, thread, EnrollVerified(agent, g)), thread, l);
    } else {
      EnrolledKeepsBalanced(cfg.consent.c, s, thread, Enrolment(agent, g),
        LogEntry(cfg, AGENT_ENROLLED, "", s.store.now), l);
    }
  }

  lemma LogKeepsBalanced(cfg: Config, s: System, thread: nat, agent: string, root: string, e: Missions.Entry, l: Line)
    requires Balanced(s, l) && thread in s.points && s.points[thread] == ToLog(agent, root, e) && root in s.tenants.byRoot
    ensures Balanced(AdvanceTenancy(cfg, s, thread, ToLog(agent, root, e)), l)
  {
    AppendedEntry(cfg.consent.c, s.tenants, agent, root, e, l);
    PostingBalances(s, AdvanceTenancy(cfg, s, thread, ToLog(agent, root, e)), thread, l, One(Logs(s.points[thread], l)), 0);
  }

  lemma TokenKeepsBalanced(cfg: Config, s: System, thread: nat, p: Point, draw: Draw, l: Line)
    requires Balanced(s, l) && thread in s.points && s.points[thread] == p && (p.TokenTenant? || p.TokenGranted?)
    ensures Balanced(AdvanceToken(cfg, s, thread, p, draw), l)
  {
    QuietMove(s, AdvanceToken(cfg, s, thread, p, draw), thread, l);
  }

  lemma RequestKeepsBalanced(cfg: Config, s: System, thread: nat, p: Point, draw: Draw, l: Line)
    requires Balanced(s, l) && thread in s.points && s.points[thread] == p && p.TokenTiered?
    requires p.root in s.tenants.byRoot && Runs.RootIsBound(s.tenants.byAgent, p.agent, p.root)
    ensures Balanced(AdvanceToken(cfg, s, thread, p, draw), l)
  {
    var t := AdvanceToken(cfg, s, thread, p, draw);
    if draw.id !in s.store.byID && draw.code !in s.store.byCode {
      var owed := One(l == Line(p.agent, p.root, TOKEN_REQUEST, draw.id));
      PostingBalances(s, t, thread, l, 0, owed);
    }
  }

  lemma CallKeepsBalanced(cfg: Config, s: System, thread: nat, call: Runs.Call, l: Line)
    requires Balanced(s, l) && thread in s.points && !s.points[thread].ToLog?
    ensures Balanced(Done(CallStore(cfg, s, Runs.Start(thread, call)), thread), l)
  {
    StoreCallKeepsRequests(cfg, s, Runs.Start(thread, call));
    QuietStep(s, Done(CallStore(cfg, s, Runs.Start(thread, call)), thread), thread, l);
  }

  lemma PageKeepsBalanced(cfg: Config, s: System, thread: nat, p: Point, l: Line)
    requires Balanced(s, l) && thread in s.points && s.points[thread] == p && p.PageFound?
    ensures Balanced(AdvanceApproval(cfg, s, thread, p), l)
  {
    if p.id in s.store.byID && s.store.byID[p.id].terms.tier != Elevated {
      CallKeepsBalanced(cfg, s, thread, Runs.ApproveRoutine(p.code), l);
    } else {
      QuietMove(s, AdvanceApproval(cfg, s, thread, p), thread, l);
    }
  }

  lemma ApprovalKeepsBalanced(cfg: Config, s: System, thread: nat, p: Point, l: Line)
    requires Balanced(s, l) && thread in s.points && s.points[thread] == p
    requires p.PageFound? || p.StepUpFound? || p.StepUpCall?
    ensures Balanced(AdvanceApproval(cfg, s, thread, p), l)
  {
    match p
    case PageFound(_, _) => PageKeepsBalanced(cfg, s, thread, p, l);
    case StepUpFound(_, _, _) => QuietMove(s, AdvanceApproval(cfg, s, thread, p), thread, l);
    case StepUpCall(code, root, sig) => CallKeepsBalanced(cfg, s, thread, Runs.ApproveElevated(code, root, sig), l);
  }

  lemma PollKeepsBalanced(cfg: Config, s: System, thread: nat, p: Point, l: Line)
    requires Balanced(s, l) && thread in s.points && s.points[thread] == p
    requires p.PollFound? || p.PollApproved? || p.PollTenant?
    ensures Balanced(AdvancePoll(cfg, s, thread, p), l)
  {
    QuietMove(s, AdvancePoll(cfg, s, thread, p), thread, l);
  }

  lemma SignatureReadKeepsBalanced(cfg: Config, s: System, thread: nat, p: Point, draw: Draw, l: Line)
    requires Balanced(s, l) && thread in s.points && s.points[thread] == p && p.PollGranted?
    ensures Balanced(AdvanceFinish(cfg, s, thread, p, draw), l)
  {
    QuietMove(s, AdvanceFinish(cfg, s, thread, p, draw), thread, l);
  }

  /** What a minting step does: nothing, or it hands out one token for the request and turns to the log. */
  lemma MintStep(cfg: Config, s: System, thread: nat, p: Point, draw: Draw) returns (i: Option<Issue>)
    requires p.PollSigned? && p.id in s.store.byID && p.root in s.tenants.byRoot
    ensures i.None? ==> AdvanceFinish(cfg, s, thread, p, draw) == Done(s, thread)
    ensures i.Some? ==>
      && i.value.terms == s.store.byID[p.id].terms && i.value.psa == s.tenants.byRoot[p.root].psa
      && AdvanceFinish(cfg, s, thread, p, draw) == Move(s.(issued := s.issued + [i.value]), thread,
           ToLog(p.agent, p.root, LogEntry(cfg, TOKEN_ISSUED, p.id, s.store.now)))
  {
    var t, psa := s.store.byID[p.id].terms, s.tenants.byRoot[p.root].psa;
    var input := MintInputFor(cfg, t, psa, p.root, p.grant, p.stepUp);
    i := if MintCheck(cfg.consent.c, cfg.key, input).Some? then None
         else Some(Issue(t, psa, p.grant, s.store.now, MintedClaims(cfg.consent.c, input, s.store.now, draw.jti)));
  }

  lemma IssueKeepsBalanced(s: System, thread: nat, p: Point, i: Issue, e: Missions.Entry, l: Line)
    requires Balanced(s, l) && thread in s.points && s.points[thread] == p && p.PollSigned?
    requires i.terms.agentID == p.agent && i.terms.id == p.id && i.psa.root == p.root
    requires e.kind == TOKEN_ISSUED && e.requestID == p.id
    ensures Balanced(Move(s.(issued := s.issued + [i]), thread, ToLog(p.agent, p.root, e)), l)
  {
    var t := Move(s.(issued := s.issued + [i]), thread, ToLog(p.agent, p.root, e));
    assert t.issued[..|t.issued| - 1] == s.issued;
    PostingBalances(s, t, thread, l, 0, One(l == Line(p.agent, p.root, TOKEN_ISSUED, p.id)));
  }

  lemma MintKeepsBalanced(cfg: Config, s: System, thread: nat, p: Point, draw: Draw, l: Line)
    requires Balanced(s, l) && thread in s.points && s.points[thread] == p && p.PollSigned?
    requires p.id in s.store.byID && s.store.byID[p.id].terms.agentID == p.agent && s.store.byID[p.id].terms.id == p.id
    requires p.root in s.tenants.byRoot && s.tenants.byRoot[p.root].psa.root == p.root
    ensures Balanced(AdvanceFinish(cfg, s, thread, p, draw), l)
  {
    var i := MintStep(cfg, s, thread, p, draw);
    if i.None? {
      QuietMove(s, Done(s, thread), thread, l);
    } else {
      IssueKeepsBalanced(s, thread, p, i.value, LogEntry(cfg, TOKEN_ISSUED, p.id, s.store.now), l);
    }
  }

  // ---------------------------------------------------------------- the books over whole runs

  /** What the invariant says about a handler that is about to post something. */
  ghost predicate Ready(s: System, p: Point) {
    match p
    case EnrollVerified(_, _) => forall id :: id in s.store.byID ==> s.store.byID[id].terms.agentID in s.tenants.byAgent
    case TokenTiered(agent, root, _, _, _) => root in s.tenants.byRoot && Runs.RootIsBound(s.tenants.byAgent, agent, root)
    case PollSigned(agent, id, root, _, _) =>
      && id in s.store.byID && s.store.byID[id].terms.agentID == agent && s.store.byID[id].terms.id == id
      && root in s.tenants.byRoot && s.tenants.byRoot[root].psa.root == root
    case ToLog(_, root, _) => root in s.tenants.byRoot
    case _ => true
  }

  lemma InvIsReady(cfg: Config, s: System, thread: nat)
    requires Inv(cfg, s) && thread in s.points
    ensures Ready(s, s.points[thread])
  {
    OwnPoint(cfg, s, thread);
    match s.points[thread]
    case EnrollVerified(_, _) => AgentsAreBound(cfg, s);
    case TokenTiered(agent, root, _, _, _) => BoundHasTenant(s.tenants, agent, root);
    case PollSigned(agent, _, root, _, _) => BoundHasTenant(s.tenants, agent, root);
    case _ =>
  }

  lemma AgentsAreBound(cfg: Config, s: System)
    requires Inv(cfg, s)
    ensures forall id :: id in s.store.byID ==> s.store.byID[id].terms.agentID in s.tenants.byAgent
  {
    forall id | id in s.store.byID
      ensures s.store.byID[id].terms.agentID in s.tenants.byAgent
    {
      assert RequestFiled(cfg, s.tenants, s.store.byID[id].terms);
    }
  }

  lemma FinishStepKeepsBalanced(cfg: Config, s: System, thread: nat, draw: Draw, l: Line)
    requires Balanced(s, l) && thread in s.points && Ready(s, s.points[thread])
    requires s.points[thread].PollGranted? || s.points[thread].PollSigned?
    ensures Balanced(DoAdvance(cfg, s, thread, draw), l)
  {
    var p := s.points[thread];
    FinishAdvances(cfg, s, thread, p, draw);
    if p.PollSigned? {
      MintKeepsBalanced(cfg, s, thread, p, draw, l);
    } else {
      SignatureReadKeepsBalanced(cfg, s, thread, p, draw, l);
    }
  }

  lemma TenancyStepKeepsBalanced(cfg: Config, s: System, thread: nat, draw: Draw, l: Line)
    requires Balanced(s, l) && thread in s.points && Ready(s, s.points[thread])
    requires var p := s.points[thread]; p.OnboardVerified? || p.EnrollFound? || p.EnrollVerified? || p.ToLog?
    ensures Balanced(DoAdvance(cfg, s, thread, draw), l)
  {
    match s.points[thread]
    case OnboardVerified(psa) => OnboardKeepsBalanced(cfg, s, thread, psa, l);
    case EnrollFound(_, _, _) => CheckKeepsBalanced(cfg, s, thread, s.points[thread], l);
    case EnrollVerified(agent, g) => EnrollKeepsBalanced(cfg, s, thread, agent, g, l);
    case ToLog(agent, root, e) => LogKeepsBalanced(cfg, s, thread, agent, root, e, l);
  }

  lemma TokenStepKeepsBalanced(cfg: Config, s: System, thread: nat, draw: Draw, l: Line)
    requires Balanced(s, l) && thread in s.points && Ready(s, s.points[thread])
    requires var p := s.points[thread]; p.TokenTenant? || p.TokenGranted? || p.TokenTiered?
    ensures Balanced(DoAdvance(cfg, s, thread, draw), l)
  {
    var p := s.points[thread];
    if p.TokenTiered? {
      RequestKeepsBalanced(cfg, s, thread, p, draw, l);
    } else {
      TokenKeepsBalanced(cfg, s, thread, p, draw, l);
    }
  }

  lemma AdvanceKeepsBalanced(cfg: Config, s: System, thread: nat, draw: Draw, l: Line)
    requires Balanced(s, l) && (thread in s.points ==> Ready(s, s.points[thread]))
    ensures Balanced(DoAdvance(cfg, s, thread, draw), l)
  {
    if thread in s.points {
      var p := s.points[thread];
      if p.OnboardVerified? || p.EnrollFound? || p.EnrollVerified? || p.ToLog? {
        TenancyStepKeepsBalanced(cfg, s, thread, draw, l);
      } else if p.TokenTenant? || p.TokenGranted? || p.TokenTiered? {
        TokenStepKeepsBalanced(cfg, s, thread, draw, l);
      } else if p.PageFound? || p.StepUpFound? || p.StepUpCall? {
        ApprovalKeepsBalanced(cfg, s, thread, p, l);
      } else if p.PollGranted? || p.PollSigned? {
        FinishStepKeepsBalanced(cfg, s, thread, draw, l);
      } else {
        PollKeepsBalanced(cfg, s, thread, p, l);
      }
    }
  }

  lemma ReadyStepKeepsBalanced(cfg: Config, s: System, a: Action, l: Line)
    requires Balanced(s, l) && (a.Advance? && a.thread in s.points ==> Ready(s, s.points[a.thread]))
    ensures Balanced(Step(cfg, s, a), l)
  {
    match a
    case Tick(elapsed) => StoreStepKeepsBalanced(cfg, s, Runs.Tick(elapsed), l);
    case Revoke(root, nonce) => assert Balanced(s.(revoked := Revocation.Revoke(s.revoked, root, nonce)), l);
    case Begin(thread, call) => BeginKeepsBalanced(cfg, s, thread, call, l);
    case Advance(thread, draw) => AdvanceKeepsBalanced(cfg, s, thread, draw, l);
    case StoreAdvance(thread) => StoreStepKeepsBalanced(cfg, s, Runs.Advance(thread), l);
  }

  /** Every step of every handler keeps every line of the books balanced. */
  lemma StepKeepsBalanced(cfg: Config, s: System, a: Action, l: Line)
    requires Inv(cfg, s) && Balanced(s, l)
    ensures Balanced(Step(cfg, s, a), l)
  {
    if a.Advance? && a.thread in s.points {
      InvIsReady(cfg, s, a.thread);
    }
    ReadyStepKeepsBalanced(cfg, s, a, l);
  }

  lemma {:induction false} RunKeepsBalanced(cfg: Config, s: System, actions: seq<Action>, l: Line)
    requires Inv(cfg, s) && Inverts(cfg.codec) && Balanced(s, l)
    ensures Balanced(Run(cfg, s, actions), l)
    decreases |actions|
  {
    if actions != [] {
      StepKeepsInv(cfg, s, actions[0]);
      StepKeepsBalanced(cfg, s, actions[0], l);
      RunKeepsBalanced(cfg, Step(cfg, s, actions[0]), actions[1..], l);
    }
  }

  lemma BootIsBalanced(now: int, l: Line)
    ensures Balanced(Boot(now), l)
  {
    assert Loggers(map[], l) == {};
  }

  /**
   * The books are complete and contain nothing else (I5): over any run, for every agent, root, kind and request, the
   * entries in the log and the handlers whose next step is to append one are together as many as there are tokens
   * handed out, requests filed or enrolments gone through for them, and none for anything else. So whenever no handler
   * is under way the logs hold exactly one entry for each.
   */
  lemma EverythingIsLogged(cfg: Config, now: int, actions: seq<Action>, l: Line)
    requires Inverts(cfg.codec)
    ensures var s := ServerGuarantees.Reached(cfg, now, actions);
      && InLog(s.tenants, l) + AboutToLog(s.points, l) == Expected(s, l)
      && (s.points == map[] ==> InLog(s.tenants, l) == Expected(s, l))
  {
    BootHoldsInv(cfg, now);
    BootIsBalanced(now, l);
    RunKeepsBalanced(cfg, Boot(now), actions, l);
    assert Loggers(map[], l) == {};
  }
}
