// internal/server/server.go and approve.go as the source runs them: handlers over shared stores on the heap. Each is
// written as one call that nothing interrupts, and shown to be such a run of the interleaved server.
module Handlers {
  import opened Attest
  import opened Basics
  import opened Consent
  import ConsentStore
  import Runs = ConsentRuns
  import opened Crypto
  import Missions
  import Revocation
  import opened Server
  import opened ServerRuns
  import Tenancy
  import opened Tokens

  // ---------------------------------------------------------------- a handler alone

  /** The rest of a handler's run while every other thread stands still. */
  function Finished(cfg: Config, s: System, thread: nat, draw: Draw, steps: nat): System
    decreases steps
  {
    if steps == 0 then s
    else if thread in s.points then Finished(cfg, DoAdvance(cfg, s, thread, draw), thread, draw, steps - 1)
    else if thread in s.store.threads then Finished(cfg, CallStore(cfg, s, Runs.Advance(thread)), thread, draw, steps - 1)
    else s
  }

  const LONGEST: nat := 6

  /** A whole handler, from its request to its answer, in a server where nothing else is under way. */
  function Alone(cfg: Config, s: System, call: Call, draw: Draw): System {
    Finished(cfg, DoBegin(cfg, s, 0, call), 0, draw, LONGEST)
  }

  predicate Idle(s: System) {
    s.points == map[] && s.store.threads == map[]
  }

  lemma {:induction false} FinishedIsARun(cfg: Config, s: System, thread: nat, draw: Draw, steps: nat)
    returns (actions: seq<Action>)
    ensures Finished(cfg, s, thread, draw, steps) == Run(cfg, s, actions)
    decreases steps
  {
    if steps == 0 || (thread !in s.points && thread !in s.store.threads) {
      actions := [];
    } else {
      var a := if thread in s.points then Advance(thread, draw) else StoreAdvance(thread);
      var rest := FinishedIsARun(cfg, Step(cfg, s, a), thread, draw, steps - 1);
      actions := [a] + rest;
      assert actions[1..] == rest;
    }
  }

  lemma RunFrom(cfg: Config, s: System, a: Action, rest: seq<Action>)
    ensures Run(cfg, s, [a] + rest) == Run(cfg, Step(cfg, s, a), rest)
  {
    assert ([a] + rest)[1..] == rest;
  }

  /** An uninterrupted handler is one of the runs the guarantees are about. */
  lemma AloneIsARun(cfg: Config, s: System, call: Call, draw: Draw)
    ensures exists actions :: Alone(cfg, s, call, draw) == Run(cfg, s, actions)
  {
    var rest := FinishedIsARun(cfg, DoBegin(cfg, s, 0, call), 0, draw, LONGEST);
    RunFrom(cfg, s, Begin(0, call), rest);
    assert Alone(cfg, s, call, draw) == Run(cfg, s, [Begin(0, call)] + rest);
  }

  /** The part of the invariant that handlers rely on when they look something up without checking. */
  ghost predicate Resolvable(s: System) {
    && Runs.Indexed(s.store) && Tenancy.RootsFiled(s.tenants) && Tenancy.AgentsBound(s.tenants)
    && (forall id :: id in s.store.byID ==> s.store.byID[id].terms.agentID in s.tenants.byAgent)
  }

  /** It holds when the server starts, and between any handlers that run alone. */
  lemma AloneStaysResolvable(cfg: Config, s: System, call: Call, draw: Draw)
    requires Inv(cfg, s) && Inverts(cfg.codec)
    ensures Resolvable(s) && Inv(cfg, Alone(cfg, s, call, draw)) && Resolvable(Alone(cfg, s, call, draw))
  {
    AloneIsARun(cfg, s, call, draw);
    var actions :| Alone(cfg, s, call, draw) == Run(cfg, s, actions);
    RunKeepsInv(cfg, s, actions);
    InvResolves(cfg, s);
    InvResolves(cfg, Run(cfg, s, actions));
  }

  lemma InvResolves(cfg: Config, s: System)
    requires Inv(cfg, s)
    ensures Resolvable(s)
  {
  }

  // ---------------------------------------------------------------- step by step

  /** The only handler under way stands at p. */
  function At(s: System, p: Point): System {
    s.(points := map[0 := p])
  }

  lemma AtMoves(s: System, p: Point, q: Point)
    requires s.points == map[]
    ensures Move(s, 0, p) == At(s, p) && Move(At(s, p), 0, q) == At(s, q) && Done(At(s, p), 0) == s
  {
  }

  /** One more step of a handler that stands at p. */
  lemma Onward(cfg: Config, s: System, p: Point, draw: Draw, steps: nat)
    requires steps > 0
    ensures Finished(cfg, At(s, p), 0, draw, steps) == Finished(cfg, DoAdvance(cfg, At(s, p), 0, draw), 0, draw, steps - 1)
  {
  }

  lemma AnsweredStays(cfg: Config, s: System, draw: Draw, steps: nat)
    requires Idle(s)
    ensures Finished(cfg, s, 0, draw, steps) == s
  {
  }

  lemma LogThenDone(cfg: Config, s: System, agent: string, root: string, e: Missions.Entry, draw: Draw, steps: nat)
    requires Idle(s) && steps > 0
    ensures Finished(cfg, At(s, ToLog(agent, root, e)), 0, draw, steps)
      == s.(tenants := Tenancy.AppendLog(cfg.consent.c, s.tenants, root, agent, e))
  {
  }

  lemma AloneOnboard(cfg: Config, s: System, psa: PSA, draw: Draw)
    requires Idle(s)
    ensures Alone(cfg, s, Onboard(psa), draw) ==
      if Tenancy.OnboardCheck(cfg.consent.c, Revocation.View(s.revoked), s.store.now, psa, cfg.issuerURL,
           KeyThumbs(cfg)).Some?
      then s else s.(tenants := Tenancy.Onboard(s.tenants, Tenancy.NewTenant(psa)))
  {
    if Tenancy.OnboardCheck(cfg.consent.c, Revocation.View(s.revoked), s.store.now, psa, cfg.issuerURL,
         KeyThumbs(cfg)).Some? {
      AnsweredStays(cfg, s, draw, LONGEST);
    } else {
      var p := OnboardVerified(psa);
      var t := s.(tenants := Tenancy.Onboard(s.tenants, Tenancy.NewTenant(psa)));
      AtMoves(s, p, p);
      AtMoves(t, p, p);
      Onward(cfg, s, p, draw, LONGEST);
      AnsweredStays(cfg, t, draw, LONGEST - 1);
    }
  }

  /** What enrolment leaves: the grant filed and logged, if it verifies and the agent is not bound elsewhere. */
  function Enrolled(cfg: Config, registry: Registry, now: int, ts: Tenancy.Tenants, agent: string, thumb: string,
                    g: AgentGrant): Tenancy.Tenants
  {
    if !Admits(cfg, registry, now, ts, agent, thumb, g) then ts
    else
      Tenancy.AppendLog(cfg.consent.c, Tenancy.Enroll(cfg.consent.c, ts, agent, g.root, g).value, g.root, agent,
        LogEntry(cfg, "agent_enrolled", "", now))
  }

  /** The root is onboarded, the grant verifies for it and this agent and key, and the agent is not bound elsewhere. */
  predicate Admits(cfg: Config, registry: Registry, now: int, ts: Tenancy.Tenants, agent: string, thumb: string,
                   g: AgentGrant)
  {
    && g.root in ts.byRoot
    && VerifyAgentGrant(cfg.consent.c, registry, now, g, g.root, agent, thumb).None?
    && Tenancy.Enroll(cfg.consent.c, ts, agent, g.root, g).Some?
  }

  lemma VerifiedEnroll(cfg: Config, s: System, agent: string, g: AgentGrant, draw: Draw)
    requires Idle(s) && g.root in s.tenants.byRoot
    ensures Finished(cfg, At(s, EnrollVerified(agent, g)), 0, draw, LONGEST - 1) ==
      match Tenancy.Enroll(cfg.consent.c, s.tenants, agent, g.root, g)
      case None => s
      case Some(ts) => s.(
        tenants := Tenancy.AppendLog(cfg.consent.c, ts, g.root, agent, LogEntry(cfg, "agent_enrolled", "", s.store.now)),
        enrolled := s.enrolled + [Enrolment(agent, g)])
  {
    var q, e := EnrollVerified(agent, g), LogEntry(cfg, "agent_enrolled", "", s.store.now);
    Onward(cfg, s, q, draw, LONGEST - 1);
    match Tenancy.Enroll(cfg.consent.c, s.tenants, agent, g.root, g)
    case None =>
      AtMoves(s, q, q);
      AnsweredStays(cfg, s, draw, LONGEST - 2);
    case Some(ts) =>
      var t := s.(tenants := ts, enrolled := s.enrolled + [Enrolment(agent, g)]);
      AtMoves(t, q, ToLog(agent, g.root, e));
      LogThenDone(cfg, t, agent, g.root, e, draw, LONGEST - 2);
  }

  lemma GrantIsChecked(cfg: Config, s: System, agent: string, thumb: string, g: AgentGrant, draw: Draw)
    requires s.points == map[]
    ensures DoAdvance(cfg, At(s, EnrollFound(agent, thumb, g)), 0, draw) ==
      if VerifyAgentGrant(cfg.consent.c, Revocation.View(s.revoked), s.store.now, g, g.root, agent, thumb).Some? then s
      else At(s, EnrollVerified(agent, g))
  {
    AtMoves(s, EnrollFound(agent, thumb, g), EnrollVerified(agent, g));
  }

  lemma AloneEnroll(cfg: Config, s: System, agent: string, thumb: string, g: AgentGrant, draw: Draw)
    requires Idle(s)
    ensures var registry := Revocation.View(s.revoked);
      Alone(cfg, s, EnrollAgent(agent, thumb, g), draw) == s.(
        tenants := Enrolled(cfg, registry, s.store.now, s.tenants, agent, thumb, g),
        enrolled := s.enrolled +
          if Admits(cfg, registry, s.store.now, s.tenants, agent, thumb, g) then [Enrolment(agent, g)] else [])
  {
    if g.root !in s.tenants.byRoot {
      AnsweredStays(cfg, s, draw, LONGEST);
    } else {
      var p := EnrollFound(agent, thumb, g);
      AtMoves(s, p, p);
      Onward(cfg, s, p, draw, LONGEST);
      GrantIsChecked(cfg, s, agent, thumb, g, draw);
      if VerifyAgentGrant(cfg.consent.c, Revocation.View(s.revoked), s.store.now, g, g.root, agent, thumb).Some? {
        AnsweredStays(cfg, s, draw, LONGEST - 1);
      } else {
        VerifiedEnroll(cfg, s, agent, g, draw);
      }
    }
  }

  /** The request that a token call files, if the agent's key is the granted one and the resource claims read. */
  function RequestFor(cfg: Config, now: int, ts: Tenancy.Tenants, agent: string, thumb: string, resourceToken: string,
                      draw: Draw): Option<Terms>
  {
    var t :- Tenancy.ByAgent(ts, agent);
    var res := ParseResourceToken(cfg, resourceToken);
    if && agent in t.grants && t.grants[agent].agentThumbprint == thumb
       && res.Some? && t.grants[agent].missionScopeS256 != ""
    then Some(NewTerms(agent, t.grants[agent], res.value, TierFor(t.psa.scope, res.value.amountWei), now, draw))
    else None
  }

  /** And the log entry it appends to the log of the agent's tenant. */
  function RequestLogged(cfg: Config, now: int, ts: Tenancy.Tenants, agent: string, id: string): Tenancy.Tenants {
    if agent !in ts.byAgent then ts
    else Tenancy.AppendLog(cfg.consent.c, ts, ts.byAgent[agent], agent, LogEntry(cfg, "token_request", id, now))
  }

  function Requested(cfg: Config, s: System, agent: string, thumb: string, resourceToken: string, draw: Draw): System {
    match RequestFor(cfg, s.store.now, s.tenants, agent, thumb, resourceToken, draw)
    case None => s
    case Some(terms) =>
      s.(store := Runs.Step(cfg.consent, s.store, Runs.Create(terms)),
         tenants := RequestLogged(cfg, s.store.now, s.tenants, agent, terms.id))
  }

  lemma RequestIsFiled(cfg: Config, s: System, agent: string, g: AgentGrant, res: ResourceClaims, root: string, draw: Draw)
    requires s.points == map[] && root in s.tenants.byRoot
    requires draw.id !in s.store.byID && draw.code !in s.store.byCode
    ensures var tier := TierFor(s.tenants.byRoot[root].psa.scope, res.amountWei);
      var p, q := TokenGranted(agent, root, g, res), TokenTiered(agent, root, g, res, tier);
      && DoAdvance(cfg, At(s, p), 0, draw) == At(s, q)
      && DoAdvance(cfg, At(s, q), 0, draw)
           == At(CallStore(cfg, s, Runs.Create(NewTerms(agent, g, res, tier, s.store.now, draw))),
                ToLog(agent, root, LogEntry(cfg, "token_request", draw.id, s.store.now)))
  {
    var tier := TierFor(s.tenants.byRoot[root].psa.scope, res.amountWei);
    var p, q := TokenGranted(agent, root, g, res), TokenTiered(agent, root, g, res, tier);
    AtMoves(s, p, q);
    AtMoves(CallStore(cfg, s, Runs.Create(NewTerms(agent, g, res, tier, s.store.now, draw))), q,
      ToLog(agent, root, LogEntry(cfg, "token_request", draw.id, s.store.now)));
  }

  lemma TokenFromGrant(cfg: Config, s: System, agent: string, g: AgentGrant, res: ResourceClaims, root: string, draw: Draw)
    requires Idle(s) && root in s.tenants.byRoot && draw.id !in s.store.byID && draw.code !in s.store.byCode
    ensures var tier := TierFor(s.tenants.byRoot[root].psa.scope, res.amountWei);
      Finished(cfg, At(s, TokenGranted(agent, root, g, res)), 0, draw, LONGEST - 1) ==
        s.(store := Runs.Step(cfg.consent, s.store, Runs.Create(NewTerms(agent, g, res, tier, s.store.now, draw))),
           tenants := Tenancy.AppendLog(cfg.consent.c, s.tenants, root, agent,
             LogEntry(cfg, "token_request", draw.id, s.store.now)))
  {
    var tier := TierFor(s.tenants.byRoot[root].psa.scope, res.amountWei);
    RequestIsFiled(cfg, s, agent, g, res, root, draw);
    Onward(cfg, s, TokenGranted(agent, root, g, res), draw, LONGEST - 1);
    Onward(cfg, s, TokenTiered(agent, root, g, res, tier), draw, LONGEST - 2);
    LogThenDone(cfg, CallStore(cfg, s, Runs.Create(NewTerms(agent, g, res, tier, s.store.now, draw))), agent, root,
      LogEntry(cfg, "token_request", draw.id, s.store.now), draw, LONGEST - 3);
  }

  lemma GrantIsRead(cfg: Config, s: System, agent: string, root: string, thumb: string, resourceToken: string, draw: Draw)
    requires s.points == map[] && root in s.tenants.byRoot
    ensures var t, res := s.tenants.byRoot[root], ParseResourceToken(cfg, resourceToken);
      DoAdvance(cfg, At(s, TokenTenant(agent, root, thumb, resourceToken)), 0, draw) ==
        if && agent in t.grants && t.grants[agent].agentThumbprint == thumb
           && res.Some? && t.grants[agent].missionScopeS256 != ""
        then At(s, TokenGranted(agent, root, t.grants[agent], res.value)) else s
  {
  }

  /** Handed a used id or code, the handler waits for another draw. */
  lemma {:induction false} WaitsForDraw(cfg: Config, s: System, p: Point, draw: Draw, steps: nat)
    requires p.TokenTiered? && p.root in s.tenants.byRoot && (draw.id in s.store.byID || draw.code in s.store.byCode)
    ensures Finished(cfg, At(s, p), 0, draw, steps) == At(s, p)
    decreases steps
  {
    if steps > 0 {
      Onward(cfg, s, p, draw, steps);
      WaitsForDraw(cfg, s, p, draw, steps - 1);
    }
  }

  lemma TokenWaits(cfg: Config, s: System, agent: string, g: AgentGrant, res: ResourceClaims, root: string, draw: Draw)
    requires s.points == map[] && root in s.tenants.byRoot && (draw.id in s.store.byID || draw.code in s.store.byCode)
    ensures var tier := TierFor(s.tenants.byRoot[root].psa.scope, res.amountWei);
      Finished(cfg, At(s, TokenGranted(agent, root, g, res)), 0, draw, LONGEST - 1)
        == At(s, TokenTiered(agent, root, g, res, tier))
  {
    var tier := TierFor(s.tenants.byRoot[root].psa.scope, res.amountWei);
    AtMoves(s, TokenGranted(agent, root, g, res), TokenTiered(agent, root, g, res, tier));
    Onward(cfg, s, TokenGranted(agent, root, g, res), draw, LONGEST - 1);
    WaitsForDraw(cfg, s, TokenTiered(agent, root, g, res, tier), draw, LONGEST - 2);
  }

  lemma AloneToken(cfg: Config, s: System, agent: string, thumb: string, resourceToken: string, draw: Draw)
    requires Idle(s) && Tenancy.RootsFiled(s.tenants)
    ensures var t := Alone(cfg, s, Token(agent, thumb, resourceToken), draw);
      if RequestFor(cfg, s.store.now, s.tenants, agent, thumb, resourceToken, draw).None?
         || (draw.id !in s.store.byID && draw.code !in s.store.byCode)
      then t == Requested(cfg, s, agent, thumb, resourceToken, draw)
      else 0 in t.points && t.points[0].TokenTiered? && t == At(s, t.points[0])
  {
    match Tenancy.ByAgent(s.tenants, agent)
    case None => AnsweredStays(cfg, s, draw, LONGEST);
    case Some(t) =>
      var p, res := TokenTenant(agent, t.root, thumb, resourceToken), ParseResourceToken(cfg, resourceToken);
      AtMoves(s, p, p);
      Onward(cfg, s, p, draw, LONGEST);
      GrantIsRead(cfg, s, agent, t.root, thumb, resourceToken, draw);
      if RequestFor(cfg, s.store.now, s.tenants, agent, thumb, resourceToken, draw).None? {
        AnsweredStays(cfg, s, draw, LONGEST - 1);
      } else if draw.id !in s.store.byID && draw.code !in s.store.byCode {
        TokenFromGrant(cfg, s, agent, t.grants[agent], res.value, t.root, draw);
      } else {
        TokenWaits(cfg, s, agent, t.grants[agent], res.value, t.root, draw);
      }
  }

  predicate Resolves(ts: Tenancy.Tenants, agent: string) {
    agent in ts.byAgent && Tenancy.HoldsGrant(ts, ts.byAgent[agent], agent)
  }

  /** The token that `finish` mints for a request under a PSA and a grant, unless Mint refuses. */
  function IssueUnder(cfg: Config, now: int, root: string, psa: PSA, g: AgentGrant, e: Entry, draw: Draw): Option<Issue> {
    var input := MintInputFor(cfg, e.terms, psa, root, g, StepUpFor(cfg, e.terms, e.stepUpSig));
    if MintCheck(cfg.consent.c, cfg.key, input).Some? then None
    else Some(Issue(e.terms, psa, g, now, MintedClaims(cfg.consent.c, input, now, draw.jti)))
  }

  /** The same under those that the agent's tenant holds. */
  function IssueFor(cfg: Config, now: int, ts: Tenancy.Tenants, e: Entry, draw: Draw): Option<Issue>
    requires Resolves(ts, e.terms.agentID)
  {
    var root := ts.byAgent[e.terms.agentID];
    IssueUnder(cfg, now, root, ts.byRoot[root].psa, ts.byRoot[root].grants[e.terms.agentID], e, draw)
  }

  function IssueLogged(cfg: Config, now: int, ts: Tenancy.Tenants, e: Entry): Tenancy.Tenants
    requires Resolves(ts, e.terms.agentID)
  {
    Tenancy.AppendLog(cfg.consent.c, ts, ts.byAgent[e.terms.agentID], e.terms.agentID,
      LogEntry(cfg, "token_issued", e.terms.id, now))
  }

  function FinishedRequest(cfg: Config, s: System, e: Entry, draw: Draw): System
    requires Resolves(s.tenants, e.terms.agentID)
  {
    match IssueFor(cfg, s.store.now, s.tenants, e, draw)
    case None => s
    case Some(i) => s.(issued := s.issued + [i], tenants := IssueLogged(cfg, s.store.now, s.tenants, e))
  }

  /** Where the handler stands once it holds the agent's grant. */
  function Granted(s: System, e: Entry): Point
    requires Resolves(s.tenants, e.terms.agentID)
  {
    var agent, root := e.terms.agentID, s.tenants.byAgent[e.terms.agentID];
    PollGranted(agent, e.terms.id, root, s.tenants.byRoot[root].grants[agent])
  }

  function Signed(cfg: Config, s: System, e: Entry): Point
    requires Resolves(s.tenants, e.terms.agentID)
  {
    var p := Granted(s, e);
    PollSigned(p.agent, p.id, p.root, p.grant, StepUpFor(cfg, e.terms, e.stepUpSig))
  }

  lemma SignatureIsRead(cfg: Config, s: System, e: Entry, draw: Draw)
    requires s.points == map[] && Resolves(s.tenants, e.terms.agentID)
    requires e.terms.id in s.store.byID && s.store.byID[e.terms.id] == e
    ensures AdvanceFinish(cfg, At(s, Granted(s, e)), 0, Granted(s, e), draw) == At(s, Signed(cfg, s, e))
  {
    AtMoves(s, Granted(s, e), Signed(cfg, s, e));
  }

  lemma FinishStep(cfg: Config, s: System, e: Entry, p: Point, draw: Draw)
    requires s.points == map[] && Resolves(s.tenants, e.terms.agentID) && p == Signed(cfg, s, e)
    requires e.terms.id in s.store.byID && s.store.byID[e.terms.id] == e
    ensures AdvanceFinish(cfg, At(s, p), 0, p, draw) ==
      match IssueFor(cfg, s.store.now, s.tenants, e, draw)
      case None => Done(At(s, p), 0)
      case Some(i) => Move(At(s, p).(issued := s.issued + [i]), 0,
                        ToLog(p.agent, p.root, LogEntry(cfg, "token_issued", e.terms.id, s.store.now)))
  {
  }

  lemma RefusedFinish(cfg: Config, s: System, e: Entry, p: Point, draw: Draw)
    requires s.points == map[] && Resolves(s.tenants, e.terms.agentID) && p == Signed(cfg, s, e)
    requires e.terms.id in s.store.byID && s.store.byID[e.terms.id] == e
    requires IssueFor(cfg, s.store.now, s.tenants, e, draw).None?
    ensures AdvanceFinish(cfg, At(s, p), 0, p, draw) == s
  {
    FinishStep(cfg, s, e, p, draw);
    AtMoves(s, p, p);
  }

  lemma MintedFinish(cfg: Config, s: System, e: Entry, p: Point, draw: Draw)
    requires s.points == map[] && Resolves(s.tenants, e.terms.agentID) && p == Signed(cfg, s, e)
    requires e.terms.id in s.store.byID && s.store.byID[e.terms.id] == e
    requires IssueFor(cfg, s.store.now, s.tenants, e, draw).Some?
    ensures AdvanceFinish(cfg, At(s, p), 0, p, draw)
      == At(s.(issued := s.issued + [IssueFor(cfg, s.store.now, s.tenants, e, draw).value]),
           ToLog(p.agent, p.root, LogEntry(cfg, "token_issued", e.terms.id, s.store.now)))
  {
    FinishStep(cfg, s, e, p, draw);
    AtMoves(s.(issued := s.issued + [IssueFor(cfg, s.store.now, s.tenants, e, draw).value]), p,
      ToLog(p.agent, p.root, LogEntry(cfg, "token_issued", e.terms.id, s.store.now)));
  }

  lemma PollFromGrant(cfg: Config, s: System, e: Entry, draw: Draw)
    requires Idle(s) && Resolves(s.tenants, e.terms.agentID)
    requires e.terms.id in s.store.byID && s.store.byID[e.terms.id] == e
    ensures Finished(cfg, At(s, Granted(s, e)), 0, draw, LONGEST - 3) == FinishedRequest(cfg, s, e, draw)
  {
    var p := Signed(cfg, s, e);
    Onward(cfg, s, Granted(s, e), draw, LONGEST - 3);
    FinishAdvances(cfg, At(s, Granted(s, e)), 0, Granted(s, e), draw);
    SignatureIsRead(cfg, s, e, draw);
    Onward(cfg, s, p, draw, LONGEST - 4);
    FinishAdvances(cfg, At(s, p), 0, p, draw);
    match IssueFor(cfg, s.store.now, s.tenants, e, draw)
    case None =>
      RefusedFinish(cfg, s, e, p, draw);
      AnsweredStays(cfg, s, draw, LONGEST - 5);
    case Some(i) =>
      MintedFinish(cfg, s, e, p, draw);
      LogThenDone(cfg, s.(issued := s.issued + [i]), p.agent, p.root,
        LogEntry(cfg, "token_issued", e.terms.id, s.store.now), draw, LONGEST - 5);
  }

  lemma RequestResolves(s: System, id: string)
    requires Resolvable(s) && id in s.store.byID
    ensures Resolves(s.tenants, s.store.byID[id].terms.agentID)
  {
  }

  /** What a poll leaves: a late pending request is marked expired, an approved one of this agent is finished. */
  function PolledRequest(cfg: Config, s: System, agent: string, id: string, draw: Draw): System
    requires Resolvable(s)
  {
    var polled := CallStore(cfg, s, Runs.Poll(id));
    if id in polled.store.byID && polled.store.byID[id].terms.agentID == agent && polled.store.byID[id].state == Approved
    then
      RequestResolves(s, id);
      FinishedRequest(cfg, polled, polled.store.byID[id], draw)
    else polled
  }

  lemma GrantIsFound(cfg: Config, s: System, e: Entry, draw: Draw)
    requires s.points == map[] && Tenancy.RootsFiled(s.tenants) && Resolves(s.tenants, e.terms.agentID)
    requires e.terms.id in s.store.byID && s.store.byID[e.terms.id] == e && e.state == Approved
    ensures var agent, id := e.terms.agentID, e.terms.id;
      var q, r := PollApproved(agent, id), PollTenant(agent, id, s.tenants.byAgent[agent]);
      && DoAdvance(cfg, At(s, PollFound(agent, id)), 0, draw) == At(s, q)
      && DoAdvance(cfg, At(s, q), 0, draw) == At(s, r)
      && DoAdvance(cfg, At(s, r), 0, draw) == At(s, Granted(s, e))
  {
    var agent, id := e.terms.agentID, e.terms.id;
    var q, r := PollApproved(agent, id), PollTenant(agent, id, s.tenants.byAgent[agent]);
    AtMoves(s, PollFound(agent, id), q);
    AtMoves(s, q, r);
    AtMoves(s, r, Granted(s, e));
  }

  lemma ApprovedPoll(cfg: Config, s: System, e: Entry, draw: Draw)
    requires Idle(s) && Tenancy.RootsFiled(s.tenants) && Resolves(s.tenants, e.terms.agentID)
    requires e.terms.id in s.store.byID && s.store.byID[e.terms.id] == e && e.state == Approved
    ensures Finished(cfg, At(s, PollFound(e.terms.agentID, e.terms.id)), 0, draw, LONGEST)
      == FinishedRequest(cfg, s, e, draw)
  {
    var agent, id := e.terms.agentID, e.terms.id;
    GrantIsFound(cfg, s, e, draw);
    Onward(cfg, s, PollFound(agent, id), draw, LONGEST);
    Onward(cfg, s, PollApproved(agent, id), draw, LONGEST - 1);
    Onward(cfg, s, PollTenant(agent, id, s.tenants.byAgent[agent]), draw, LONGEST - 2);
    PollFromGrant(cfg, s, e, draw);
  }

  lemma AlonePoll(cfg: Config, s: System, agent: string, id: string, draw: Draw)
    requires Idle(s) && Resolvable(s)
    ensures Alone(cfg, s, PollPending(agent, id), draw) == PolledRequest(cfg, s, agent, id, draw)
  {
    var polled, p := CallStore(cfg, s, Runs.Poll(id)), PollFound(agent, id);
    if id in s.store.byID && s.store.byID[id].terms.agentID == agent {
      RequestResolves(s, id);
      AtMoves(polled, p, p);
      if polled.store.byID[id].state == Approved {
        ApprovedPoll(cfg, polled, polled.store.byID[id], draw);
      } else {
        Onward(cfg, polled, p, draw, LONGEST);
        AnsweredStays(cfg, polled, draw, LONGEST - 1);
      }
    } else {
      AnsweredStays(cfg, polled, draw, LONGEST);
    }
  }

  // ---------------------------------------------------------------- consent handlers

  /** A store call that nothing interrupts. */
  function Called(cfg: Config, s: System, call: Runs.Call): System {
    CallStoreThrice(cfg, CallStore(cfg, s, Runs.Start(0, call)))
  }

  function CallStoreThrice(cfg: Config, s: System): System {
    CallStore(cfg, CallStore(cfg, CallStore(cfg, s, Runs.Advance(0)), Runs.Advance(0)), Runs.Advance(0))
  }

  lemma CalledExactly(cfg: Config, s: System, call: Runs.Call)
    requires Idle(s) && Runs.Indexed(s.store)
    ensures var r := ConsentStore.Sequential(cfg.consent, s.store.byID, s.store.byCode, s.store.now, call);
      Called(cfg, s, call) == s.(store := s.store.(byID := r.0,
        outcomes := s.store.outcomes + [(0, ConsentStore.Verdict(s.store, call, r.1))]))
  {
    ConsentStore.UninterruptedCall(cfg.consent, s.store, 0, call);
    ConsentStore.FourSteps(cfg.consent, s.store,
      [Runs.Start(0, call), Runs.Advance(0), Runs.Advance(0), Runs.Advance(0)]);
  }

  lemma StoreFinishes(cfg: Config, s: System, draw: Draw, steps: nat)
    requires s.points == map[] && steps >= 3 && CallStoreThrice(cfg, s).store.threads == map[]
    ensures Finished(cfg, s, 0, draw, steps) == CallStoreThrice(cfg, s)
  {
    var t := CallStore(cfg, s, Runs.Advance(0));
    var u := CallStore(cfg, t, Runs.Advance(0));
    var v := CallStore(cfg, u, Runs.Advance(0));
    assert 0 !in s.store.threads ==> t == s;
    assert 0 !in t.store.threads ==> u == t;
    assert 0 !in u.store.threads ==> v == u;
    assert Finished(cfg, u, 0, draw, steps - 2) == v by {
      assert Finished(cfg, v, 0, draw, steps - 3) == v;
    }
    assert Finished(cfg, t, 0, draw, steps - 1) == v;
  }

  lemma CallFinishes(cfg: Config, s: System, call: Runs.Call, draw: Draw, steps: nat)
    requires Idle(s) && Runs.Indexed(s.store) && steps >= 3
    ensures Finished(cfg, CallStore(cfg, s, Runs.Start(0, call)), 0, draw, steps) == Called(cfg, s, call)
  {
    CalledExactly(cfg, s, call);
    StoreFinishes(cfg, CallStore(cfg, s, Runs.Start(0, call)), draw, steps);
  }

  /** What a visit of the approval page leaves: a routine request approved, an elevated one as it was. */
  function Paged(cfg: Config, s: System, code: string): System
    requires Runs.Indexed(s.store)
  {
    if code !in s.store.byCode || s.store.byID[s.store.byCode[code]].terms.tier == Elevated then s
    else Called(cfg, s, Runs.ApproveRoutine(code))
  }

  lemma AlonePage(cfg: Config, s: System, code: string, draw: Draw)
    requires Idle(s) && Runs.Indexed(s.store)
    ensures Alone(cfg, s, ApprovePage(code), draw) == Paged(cfg, s, code)
  {
    if code !in s.store.byCode {
      AnsweredStays(cfg, s, draw, LONGEST);
    } else {
      var p, a := PageFound(code, s.store.byCode[code]), Runs.Start(0, Runs.ApproveRoutine(code));
      AtMoves(s, p, p);
      Onward(cfg, s, p, draw, LONGEST);
      if s.store.byID[s.store.byCode[code]].terms.tier == Elevated {
        AnsweredStays(cfg, s, draw, LONGEST - 1);
      } else {
        AtMoves(CallStore(cfg, s, a), p, p);
        assert DoAdvance(cfg, At(s, p), 0, draw) == CallStore(cfg, s, a);
        CallFinishes(cfg, s, Runs.ApproveRoutine(code), draw, LONGEST - 1);
      }
    }
  }

  /** The root whose signature a step-up at this code has to be: that of the tenant of the request's agent. */
  function RootOfCode(byID: map<string, Entry>, byCode: map<string, string>, ts: Tenancy.Tenants, code: string)
    : Option<string>
    requires forall code :: code in byCode ==> byCode[code] in byID
  {
    if code !in byCode then None
    else
      match Tenancy.ByAgent(ts, byID[byCode[code]].terms.agentID)
      case None => None
      case Some(t) => Some(t.root)
  }

  /** What a posted signature leaves: the store's step-up call, with the root the request's agent is bound to. */
  function SteppedUp(cfg: Config, s: System, code: string, sig: Bytes): System
    requires Runs.Indexed(s.store)
  {
    match RootOfCode(s.store.byID, s.store.byCode, s.tenants, code)
    case None => s
    case Some(root) => Called(cfg, s, Runs.ApproveElevated(code, root, sig))
  }

  lemma StepUpFromTenant(cfg: Config, s: System, code: string, root: string, sig: Bytes, draw: Draw)
    requires Idle(s) && Runs.Indexed(s.store)
    ensures Finished(cfg, At(s, StepUpCall(code, root, sig)), 0, draw, LONGEST - 1)
      == Called(cfg, s, Runs.ApproveElevated(code, root, sig))
  {
    var q, a := StepUpCall(code, root, sig), Runs.Start(0, Runs.ApproveElevated(code, root, sig));
    AtMoves(CallStore(cfg, s, a), q, q);
    Onward(cfg, s, q, draw, LONGEST - 1);
    assert DoAdvance(cfg, At(s, q), 0, draw) == CallStore(cfg, s, a);
    CallFinishes(cfg, s, Runs.ApproveElevated(code, root, sig), draw, LONGEST - 2);
  }

  lemma AloneStepUp(cfg: Config, s: System, code: string, sig: Bytes, draw: Draw)
    requires Idle(s) && Runs.Indexed(s.store)
    ensures Alone(cfg, s, StepUpPage(code, sig), draw) == SteppedUp(cfg, s, code, sig)
  {
    if code !in s.store.byCode {
      AnsweredStays(cfg, s, draw, LONGEST);
    } else {
      var p := StepUpFound(code, s.store.byCode[code], sig);
      AtMoves(s, p, p);
      Onward(cfg, s, p, draw, LONGEST);
      match Tenancy.ByAgent(s.tenants, s.store.byID[s.store.byCode[code]].terms.agentID)
      case None => AnsweredStays(cfg, s, draw, LONGEST - 1);
      case Some(t) =>
        AtMoves(s, p, StepUpCall(code, t.root, sig));
        StepUpFromTenant(cfg, s, code, t.root, sig, draw);
    }
  }
}
