// What every document in force, every request and every token owes to the past of a run: the instant at which the
// document was checked against the registry of that instant, and the PSA under which the tier was read.
module ServerHistory {
  import opened Attest
  import opened Basics
  import opened Consent
  import Runs = ConsentRuns
  import Revocation
  import opened Server
  import ServerGuarantees
  import opened ServerRuns
  import Tenancy
  import opened Tokens

  // ---------------------------------------------------------------- verdicts

  /** Onboarding would accept the PSA in this state. */
  predicate PsaPasses(cfg: Config, s: System, psa: PSA) {
    Tenancy.OnboardCheck(cfg.consent.c, Revocation.View(s.revoked), s.store.now, psa, cfg.issuerURL, KeyThumbs(cfg)).None?
  }

  /** Enrolment would accept the grant in this state, for the agent it names and some key. */
  ghost predicate GrantPasses(cfg: Config, s: System, g: AgentGrant) {
    VerifyAgentGrant(cfg.consent.c, Revocation.View(s.revoked), s.store.now, g, g.root, g.agentIdentifier,
      g.agentThumbprint).None?
  }

  /** In this state the root's tenant holds a PSA that puts the amount in the tier. */
  predicate TierReads(s: System, root: string, tier: Tier, amountWei: string) {
    root in s.tenants.byRoot && tier == TierFor(s.tenants.byRoot[root].psa.scope, amountWei)
  }

  datatype Verdicts = Verdicts(
    psa: PSA -> bool,
    grant: AgentGrant -> bool,
    tier: (string, Tier, string) -> bool
  )

  /** Whatever passes in this state has the verdict. */
  ghost predicate Covers(cfg: Config, v: Verdicts, s: System) {
    && (forall psa :: PsaPasses(cfg, s, psa) ==> v.psa(psa))
    && (forall g :: GrantPasses(cfg, s, g) ==> v.grant(g))
    && (forall root, tier, amountWei :: TierReads(s, root, tier, amountWei) ==> v.tier(root, tier, amountWei))
  }

  ghost predicate PointJudged(v: Verdicts, p: Point) {
    match p
    case OnboardVerified(psa) => v.psa(psa)
    case EnrollVerified(_, g) => v.grant(g)
    case TokenGranted(_, _, g, _) => v.grant(g)
    case TokenTiered(_, root, g, res, tier) => v.grant(g) && v.tier(root, tier, res.amountWei)
    case PollGranted(_, _, _, g) => v.grant(g)
    case PollSigned(_, _, _, g, _) => v.grant(g)
    case _ => true
  }

  ghost predicate IssueJudged(v: Verdicts, i: Issue) {
    v.psa(i.psa) && v.grant(i.grant)
  }

  ghost predicate TermsJudged(v: Verdicts, ts: Tenancy.Tenants, t: Terms) {
    t.agentID in ts.byAgent && v.tier(ts.byAgent[t.agentID], t.tier, t.amountWei)
  }

  ghost predicate Judged(v: Verdicts, s: System) {
    && AllPsas(s.tenants, v.psa) && AllGrants(s.tenants, v.grant)
    && (forall id :: id in s.store.byID ==> TermsJudged(v, s.tenants, s.store.byID[id].terms))
    && AllPoints(s.points, p => PointJudged(v, p))
    && AllIssues(s.issued, i => IssueJudged(v, i))
  }

  // ---------------------------------------------------------------- every step keeps them

  lemma MoveKeepsJudged(v: Verdicts, s: System, thread: nat, p: Point)
    requires Judged(v, s) && PointJudged(v, p)
    ensures Judged(v, Move(s, thread, p))
  {
    PutKeepsAll(s.points, thread, p, q => PointJudged(v, q));
  }

  lemma DoneKeepsJudged(v: Verdicts, s: System, thread: nat)
    requires Judged(v, s)
    ensures Judged(v, Done(s, thread))
  {
  }

  lemma OwnPointJudged(v: Verdicts, s: System, thread: nat)
    requires Judged(v, s) && thread in s.points
    ensures PointJudged(v, s.points[thread])
  {
    var ok := (p: Point) => PointJudged(v, p);
    assert ok(s.points[thread]);
  }

  lemma StoreKeepsJudged(cfg: Config, v: Verdicts, s: System, a: Runs.Action)
    requires Judged(v, s) && (a.Create? ==> TermsJudged(v, s.tenants, a.terms))
    ensures Judged(v, CallStore(cfg, s, a))
  {
    StepFilesOneRequest(cfg.consent, s.store, a);
    Runs.StepPersists(cfg.consent, s.store, a);
  }

  lemma TenantsKeepJudged(v: Verdicts, s: System, ts: Tenancy.Tenants)
    requires Judged(v, s) && AllPsas(ts, v.psa) && AllGrants(ts, v.grant)
    requires forall agent :: agent in s.tenants.byAgent ==>
               agent in ts.byAgent && ts.byAgent[agent] == s.tenants.byAgent[agent]
    ensures Judged(v, s.(tenants := ts))
  {
  }

  lemma BeginKeepsJudged(cfg: Config, v: Verdicts, s: System, thread: nat, call: Call)
    requires Judged(v, s) && Covers(cfg, v, s)
    ensures Judged(v, DoBegin(cfg, s, thread, call))
  {
    var t := DoBegin(cfg, s, thread, call);
    match call
    case PollPending(agent, id) =>
      StoreKeepsJudged(cfg, v, s, Runs.Poll(id));
      if t != s && t != CallStore(cfg, s, Runs.Poll(id)) {
        MoveKeepsJudged(v, CallStore(cfg, s, Runs.Poll(id)), thread, PollFound(agent, id));
      }
    case DenyCall(code) => StoreKeepsJudged(cfg, v, s, Runs.Start(thread, Runs.Deny(code)));
    case _ =>
      if t != s {
        MoveKeepsJudged(v, s, thread, t.points[thread]);
      }
  }

  lemma OnboardKeepsJudged(cfg: Config, v: Verdicts, s: System, thread: nat, psa: PSA)
    requires Judged(v, s) && v.psa(psa)
    ensures Judged(v, AdvanceTenancy(cfg, s, thread, OnboardVerified(psa)))
  {
    OnboardKeepsAll(s.tenants, psa, v.psa, v.grant);
    TenantsKeepJudged(v, s, Tenancy.Onboard(s.tenants, Tenancy.NewTenant(psa)));
    DoneKeepsJudged(v, s.(tenants := Tenancy.Onboard(s.tenants, Tenancy.NewTenant(psa))), thread);
  }

  lemma CheckKeepsJudged(cfg: Config, v: Verdicts, s: System, thread: nat, agent: string, thumb: string, g: AgentGrant)
    requires Judged(v, s) && Covers(cfg, v, s)
    ensures Judged(v, AdvanceTenancy(cfg, s, thread, EnrollFound(agent, thumb, g)))
  {
    var registry := Revocation.View(s.revoked);
    if VerifyAgentGrant(cfg.consent.c, registry, s.store.now, g, g.root, agent, thumb).None? {
      VerifyAgentGrantExactly(cfg.consent.c, registry, s.store.now, g, g.root, agent, thumb);
      assert GrantPasses(cfg, s, g);
      MoveKeepsJudged(v, s, thread, EnrollVerified(agent, g));
    } else {
      DoneKeepsJudged(v, s, thread);
    }
  }

  lemma EnrollKeepsJudged(cfg: Config, v: Verdicts, s: System, thread: nat, agent: string, g: AgentGrant)
    requires Judged(v, s) && v.grant(g) && g.root in s.tenants.byRoot
    ensures Judged(v, AdvanceTenancy(cfg, s, thread, EnrollVerified(agent, g)))
  {
    var enrolled := Tenancy.Enroll(cfg.consent.c, s.tenants, agent, g.root, g);
    if enrolled.Some? {
      EnrollKeepsAll(cfg.consent.c, s.tenants, agent, g, v.psa, v.grant);
      TenantsKeepJudged(v, s, enrolled.value);
      var t := s.(tenants := enrolled.value, enrolled := s.enrolled + [Enrolment(agent, g)]);
      assert Judged(v, t);
      MoveKeepsJudged(v, t, thread, ToLog(agent, g.root, LogEntry(cfg, "agent_enrolled", "", s.store.now)));
    } else {
      DoneKeepsJudged(v, s, thread);
    }
  }

  lemma LogKeepsJudged(cfg: Config, v: Verdicts, s: System, thread: nat, p: Point)
    requires Judged(v, s) && p.ToLog?
    ensures Judged(v, AdvanceTenancy(cfg, s, thread, p))
  {
    var ts := Tenancy.AppendLog(cfg.consent.c, s.tenants, p.root, p.agent, p.entry);
    LogKeepsAll(cfg.consent.c, s.tenants, p.root, p.agent, p.entry, v.psa, v.grant);
    TenantsKeepJudged(v, s, ts);
    DoneKeepsJudged(v, s.(tenants := ts), thread);
  }

  lemma GrantReadKeepsJudged(cfg: Config, v: Verdicts, s: System, thread: nat, p: Point, draw: Draw)
    requires Judged(v, s) && p.TokenTenant? && p.root in s.tenants.byRoot
    ensures Judged(v, AdvanceToken(cfg, s, thread, p, draw))
  {
    var t := AdvanceToken(cfg, s, thread, p, draw);
    if t == Done(s, thread) {
      DoneKeepsJudged(v, s, thread);
    } else {
      assert Tenancy.HoldsGrant(s.tenants, p.root, p.agent);
      MoveKeepsJudged(v, s, thread, t.points[thread]);
    }
  }

  lemma TierReadKeepsJudged(cfg: Config, v: Verdicts, s: System, thread: nat, p: Point, draw: Draw)
    requires Judged(v, s) && Covers(cfg, v, s) && p.TokenGranted? && PointJudged(v, p) && p.root in s.tenants.byRoot
    ensures Judged(v, AdvanceToken(cfg, s, thread, p, draw))
  {
    var tier := TierFor(s.tenants.byRoot[p.root].psa.scope, p.res.amountWei);
    assert TierReads(s, p.root, tier, p.res.amountWei);
    MoveKeepsJudged(v, s, thread, TokenTiered(p.agent, p.root, p.grant, p.res, tier));
  }

  lemma RequestKeepsJudged(cfg: Config, v: Verdicts, s: System, thread: nat, p: Point, draw: Draw)
    requires Judged(v, s) && p.TokenTiered? && PointJudged(v, p) && p.root in s.tenants.byRoot
    requires Runs.RootIsBound(s.tenants.byAgent, p.agent, p.root)
    ensures Judged(v, AdvanceToken(cfg, s, thread, p, draw))
  {
    if draw.id !in s.store.byID && draw.code !in s.store.byCode {
      var create := Runs.Create(NewTerms(p.agent, p.grant, p.res, p.tier, s.store.now, draw));
      StoreKeepsJudged(cfg, v, s, create);
      MoveKeepsJudged(v, CallStore(cfg, s, create), thread,
        ToLog(p.agent, p.root, LogEntry(cfg, "token_request", draw.id, s.store.now)));
    }
  }

  lemma ApprovalKeepsJudged(cfg: Config, v: Verdicts, s: System, thread: nat, p: Point)
    requires Judged(v, s) && (p.PageFound? || p.StepUpFound? || p.StepUpCall?)
    ensures Judged(v, AdvanceApproval(cfg, s, thread, p))
  {
    match p
    case PageFound(code, id) =>
      if id !in s.store.byID || s.store.byID[id].terms.tier == Elevated {
        DoneKeepsJudged(v, s, thread);
      } else {
        StoreKeepsJudged(cfg, v, s, Runs.Start(thread, Runs.ApproveRoutine(code)));
        DoneKeepsJudged(v, CallStore(cfg, s, Runs.Start(thread, Runs.ApproveRoutine(code))), thread);
      }
    case StepUpFound(code, id, sig) =>
      if thread in AdvanceApproval(cfg, s, thread, p).points {
        MoveKeepsJudged(v, s, thread, AdvanceApproval(cfg, s, thread, p).points[thread]);
      } else {
        DoneKeepsJudged(v, s, thread);
      }
    case StepUpCall(code, root, sig) =>
      StoreKeepsJudged(cfg, v, s, Runs.Start(thread, Runs.ApproveElevated(code, root, sig)));
      DoneKeepsJudged(v, CallStore(cfg, s, Runs.Start(thread, Runs.ApproveElevated(code, root, sig))), thread);
  }

  lemma PollKeepsJudged(cfg: Config, v: Verdicts, s: System, thread: nat, p: Point)
    requires Judged(v, s) && (p.PollFound? || p.PollApproved? || p.PollTenant?)
    ensures Judged(v, AdvancePoll(cfg, s, thread, p))
  {
    var t := AdvancePoll(cfg, s, thread, p);
    if thread !in t.points {
      assert t == Done(s, thread) || t == Done(s.(fault := true), thread);
    } else {
      assert p.PollTenant? ==> Tenancy.HoldsGrant(s.tenants, p.root, p.agent);
      MoveKeepsJudged(v, s, thread, t.points[thread]);
    }
  }

  lemma SignatureReadKeepsJudged(cfg: Config, v: Verdicts, s: System, thread: nat, p: Point, draw: Draw)
    requires Judged(v, s) && p.PollGranted? && PointJudged(v, p)
    ensures Judged(v, AdvanceFinish(cfg, s, thread, p, draw))
  {
    var t := AdvanceFinish(cfg, s, thread, p, draw);
    if thread in t.points {
      MoveKeepsJudged(v, s, thread, t.points[thread]);
    } else {
      assert t == Done(s.(fault := true), thread);
    }
  }

  lemma MintKeepsJudged(cfg: Config, v: Verdicts, s: System, thread: nat, p: Point, draw: Draw)
    requires Judged(v, s) && p.PollSigned? && PointJudged(v, p) && p.id in s.store.byID && p.root in s.tenants.byRoot
    ensures Judged(v, AdvanceFinish(cfg, s, thread, p, draw))
  {
    var e, psa := s.store.byID[p.id], s.tenants.byRoot[p.root].psa;
    var input := MintInputFor(cfg, e.terms, psa, p.root, p.grant, p.stepUp);
    if MintCheck(cfg.consent.c, cfg.key, input).Some? {
      DoneKeepsJudged(v, s, thread);
    } else {
      var i := Issue(e.terms, psa, p.grant, s.store.now, MintedClaims(cfg.consent.c, input, s.store.now, draw.jti));
      AppendKeepsAll(s.issued, i, j => IssueJudged(v, j));
      MoveKeepsJudged(v, s.(issued := s.issued + [i]), thread,
        ToLog(p.agent, p.root, LogEntry(cfg, "token_issued", p.id, s.store.now)));
    }
  }

  /** What the invariant says of the roots and requests that handlers hold. */
  ghost predicate Rooted(s: System, p: Point) {
    match p
    case EnrollVerified(_, g) => g.root in s.tenants.byRoot
    case TokenTenant(_, root, _, _) => root in s.tenants.byRoot
    case TokenGranted(_, root, _, _) => root in s.tenants.byRoot
    case TokenTiered(agent, root, _, _, _) => root in s.tenants.byRoot && Runs.RootIsBound(s.tenants.byAgent, agent, root)
    case PollSigned(_, id, root, _, _) => id in s.store.byID && root in s.tenants.byRoot
    case _ => true
  }

  lemma InvIsRooted(cfg: Config, s: System, thread: nat)
    requires Inv(cfg, s) && thread in s.points
    ensures Rooted(s, s.points[thread])
  {
    OwnPoint(cfg, s, thread);
    match s.points[thread]
    case TokenTenant(agent, root, _, _) => BoundHasTenant(s.tenants, agent, root);
    case TokenGranted(agent, root, _, _) => BoundHasTenant(s.tenants, agent, root);
    case TokenTiered(agent, root, _, _, _) => BoundHasTenant(s.tenants, agent, root);
    case PollSigned(agent, _, root, _, _) => BoundHasTenant(s.tenants, agent, root);
    case _ =>
  }

  lemma TenancyKeepsJudged(cfg: Config, v: Verdicts, s: System, thread: nat, p: Point)
    requires Judged(v, s) && Covers(cfg, v, s) && PointJudged(v, p) && Rooted(s, p)
    requires p.OnboardVerified? || p.EnrollFound? || p.EnrollVerified? || p.ToLog?
    ensures Judged(v, AdvanceTenancy(cfg, s, thread, p))
  {
    match p
    case OnboardVerified(psa) => OnboardKeepsJudged(cfg, v, s, thread, psa);
    case EnrollFound(agent, thumb, g) => CheckKeepsJudged(cfg, v, s, thread, agent, thumb, g);
    case EnrollVerified(agent, g) => EnrollKeepsJudged(cfg, v, s, thread, agent, g);
    case ToLog(_, _, _) => LogKeepsJudged(cfg, v, s, thread, p);
  }

  lemma TokenKeepsJudged(cfg: Config, v: Verdicts, s: System, thread: nat, p: Point, draw: Draw)
    requires Judged(v, s) && Covers(cfg, v, s) && PointJudged(v, p) && Rooted(s, p)
    requires p.TokenTenant? || p.TokenGranted? || p.TokenTiered?
    ensures Judged(v, AdvanceToken(cfg, s, thread, p, draw))
  {
    match p
    case TokenTenant(_, _, _, _) => GrantReadKeepsJudged(cfg, v, s, thread, p, draw);
    case TokenGranted(_, _, _, _) => TierReadKeepsJudged(cfg, v, s, thread, p, draw);
    case TokenTiered(_, _, _, _, _) => RequestKeepsJudged(cfg, v, s, thread, p, draw);
  }

  lemma AdvanceKeepsJudged(cfg: Config, v: Verdicts, s: System, thread: nat, draw: Draw)
    requires Judged(v, s) && Covers(cfg, v, s) && (thread in s.points ==> Rooted(s, s.points[thread]))
    ensures Judged(v, DoAdvance(cfg, s, thread, draw))
  {
    if thread in s.points {
      OwnPointJudged(v, s, thread);
      var p := s.points[thread];
      if p.OnboardVerified? || p.EnrollFound? || p.EnrollVerified? || p.ToLog? {
        TenancyKeepsJudged(cfg, v, s, thread, p);
      } else if p.TokenTenant? || p.TokenGranted? || p.TokenTiered? {
        TokenKeepsJudged(cfg, v, s, thread, p, draw);
      } else if p.PageFound? || p.StepUpFound? || p.StepUpCall? {
        ApprovalKeepsJudged(cfg, v, s, thread, p);
      } else if p.PollGranted? {
        SignatureReadKeepsJudged(cfg, v, s, thread, p, draw);
      } else if p.PollSigned? {
        MintKeepsJudged(cfg, v, s, thread, p, draw);
      } else {
        PollKeepsJudged(cfg, v, s, thread, p);
      }
    }
  }

  /** No step lets anything into force, into a request or into a token that has no verdict. */
  lemma StepKeepsJudged(cfg: Config, v: Verdicts, s: System, a: Action)
    requires Judged(v, s) && Covers(cfg, v, s)
    requires a.Advance? && a.thread in s.points ==> Rooted(s, s.points[a.thread])
    ensures Judged(v, Step(cfg, s, a))
  {
    match a
    case Tick(elapsed) => StoreKeepsJudged(cfg, v, s, Runs.Tick(elapsed));
    case Revoke(_, _) =>
    case Begin(thread, call) => BeginKeepsJudged(cfg, v, s, thread, call);
    case Advance(thread, draw) => AdvanceKeepsJudged(cfg, v, s, thread, draw);
    case StoreAdvance(thread) => StoreKeepsJudged(cfg, v, s, Runs.Advance(thread));
  }

  lemma {:induction false} RunKeepsJudged(cfg: Config, v: Verdicts, s: System, actions: seq<Action>)
    requires Inv(cfg, s) && Inverts(cfg.codec) && Judged(v, s)
    requires forall i :: 0 <= i < |actions| ==> Covers(cfg, v, Run(cfg, s, actions[..i]))
    ensures Judged(v, Run(cfg, s, actions))
    decreases |actions|
  {
    if actions != [] {
      var t := Step(cfg, s, actions[0]);
      assert Run(cfg, s, actions[..0]) == s;
      StepKeepsInv(cfg, s, actions[0]);
      if actions[0].Advance? && actions[0].thread in s.points {
        InvIsRooted(cfg, s, actions[0].thread);
      }
      StepKeepsJudged(cfg, v, s, actions[0]);
      forall i | 0 <= i < |actions| - 1
        ensures Covers(cfg, v, Run(cfg, t, actions[1..][..i]))
      {
        assert actions[..i + 1][1..] == actions[1..][..i] && actions[..i + 1][0] == actions[0];
        assert Run(cfg, s, actions[..i + 1]) == Run(cfg, t, actions[1..][..i]);
      }
      RunKeepsJudged(cfg, v, t, actions[1..]);
    }
  }

  // ---------------------------------------------------------------- the past of a run

  /** The state after the first i actions. */
  function After(cfg: Config, now: int, actions: seq<Action>, i: nat): System
    requires i <= |actions|
  {
    ServerGuarantees.Reached(cfg, now, actions[..i])
  }

  ghost predicate PsaPassed(cfg: Config, now: int, actions: seq<Action>, psa: PSA) {
    exists i: nat :: i < |actions| && PsaPasses(cfg, After(cfg, now, actions, i), psa)
  }

  ghost predicate GrantPassed(cfg: Config, now: int, actions: seq<Action>, g: AgentGrant) {
    exists i: nat :: i < |actions| && GrantPasses(cfg, After(cfg, now, actions, i), g)
  }

  ghost predicate TierWasRead(cfg: Config, now: int, actions: seq<Action>, root: string, tier: Tier, amountWei: string) {
    exists i: nat :: i < |actions| && TierReads(After(cfg, now, actions, i), root, tier, amountWei)
  }

  ghost function PastOf(cfg: Config, now: int, actions: seq<Action>): Verdicts {
    Verdicts(
      psa => PsaPassed(cfg, now, actions, psa),
      g => GrantPassed(cfg, now, actions, g),
      (root, tier, amountWei) => TierWasRead(cfg, now, actions, root, tier, amountWei))
  }

  lemma PastCovers(cfg: Config, now: int, actions: seq<Action>, i: nat)
    requires i < |actions|
    ensures Covers(cfg, PastOf(cfg, now, actions), After(cfg, now, actions, i))
  {
  }

  /** Everything in force, filed or handed out has its verdict from an earlier instant of the run. */
  lemma ReachedIsJudged(cfg: Config, now: int, actions: seq<Action>)
    requires Inverts(cfg.codec)
    ensures Judged(PastOf(cfg, now, actions), ServerGuarantees.Reached(cfg, now, actions))
  {
    BootHoldsInv(cfg, now);
    forall i | 0 <= i < |actions|
      ensures Covers(cfg, PastOf(cfg, now, actions), Run(cfg, Boot(now), actions[..i]))
    {
      PastCovers(cfg, now, actions, i);
    }
    RunKeepsJudged(cfg, PastOf(cfg, now, actions), Boot(now), actions);
  }

  // ---------------------------------------------------------------- what that means

  /** At an earlier instant the PSA met every condition of onboarding, and its handle had not been revoked by then. */
  ghost predicate PsaChecked(cfg: Config, now: int, actions: seq<Action>, psa: PSA) {
    exists i: nat :: i < |actions| && PsaCheckedAt(cfg, now, actions, i, psa)
  }

  ghost predicate PsaCheckedAt(cfg: Config, now: int, actions: seq<Action>, i: nat, psa: PSA)
    requires i <= |actions|
  {
    var u := After(cfg, now, actions, i);
    && Revoke(psa.root, psa.nonce) !in actions[..i]
    && exists thumb :: thumb in KeyThumbs(cfg) &&
         PsaHolds(cfg.consent.c, Revocation.View(u.revoked), u.store.now, psa, cfg.issuerURL, thumb)
  }

  ghost predicate GrantChecked(cfg: Config, now: int, actions: seq<Action>, g: AgentGrant) {
    exists i: nat :: i < |actions| && GrantCheckedAt(cfg, now, actions, i, g)
  }

  ghost predicate GrantCheckedAt(cfg: Config, now: int, actions: seq<Action>, i: nat, g: AgentGrant)
    requires i <= |actions|
  {
    var u := After(cfg, now, actions, i);
    && Revoke(g.root, g.nonce) !in actions[..i]
    && GrantHolds(cfg.consent.c, Revocation.View(u.revoked), u.store.now, g, g.root, g.agentIdentifier, g.agentThumbprint)
  }

  lemma PassedIsChecked(cfg: Config, now: int, actions: seq<Action>, psa: PSA)
    requires PsaPassed(cfg, now, actions, psa)
    ensures PsaChecked(cfg, now, actions, psa)
  {
    var i: nat :| i < |actions| && PsaPasses(cfg, After(cfg, now, actions, i), psa);
    OnboardCheckVets(cfg, After(cfg, now, actions, i), psa);
    ServerGuarantees.RevokedByRun(cfg, Boot(now), actions[..i], psa.root, psa.nonce);
    assert PsaCheckedAt(cfg, now, actions, i, psa);
  }

  lemma PassedGrantIsChecked(cfg: Config, now: int, actions: seq<Action>, g: AgentGrant)
    requires GrantPassed(cfg, now, actions, g)
    ensures GrantChecked(cfg, now, actions, g)
  {
    var i: nat :| i < |actions| && GrantPasses(cfg, After(cfg, now, actions, i), g);
    var u := After(cfg, now, actions, i);
    VerifyAgentGrantExactly(cfg.consent.c, Revocation.View(u.revoked), u.store.now, g, g.root, g.agentIdentifier,
      g.agentThumbprint);
    ServerGuarantees.RevokedByRun(cfg, Boot(now), actions[..i], g.root, g.nonce);
    assert GrantCheckedAt(cfg, now, actions, i, g);
  }

  /** Every PSA in force and every grant held was checked, against the registry and the clock of an earlier instant. */
  lemma InForceWasChecked(cfg: Config, now: int, actions: seq<Action>, root: string)
    requires Inverts(cfg.codec) && root in ServerGuarantees.Reached(cfg, now, actions).tenants.byRoot
    ensures var t := ServerGuarantees.Reached(cfg, now, actions).tenants.byRoot[root];
      && PsaChecked(cfg, now, actions, t.psa)
      && (forall agent :: agent in t.grants ==> GrantChecked(cfg, now, actions, t.grants[agent]))
  {
    ReachedIsJudged(cfg, now, actions);
    var v, ts := PastOf(cfg, now, actions), ServerGuarantees.Reached(cfg, now, actions).tenants;
    assert v.psa(ts.byRoot[root].psa);
    PassedIsChecked(cfg, now, actions, ts.byRoot[root].psa);
    forall agent | agent in ts.byRoot[root].grants
      ensures GrantChecked(cfg, now, actions, ts.byRoot[root].grants[agent])
    {
      assert Tenancy.HoldsGrant(ts, root, agent);
      assert v.grant(ts.byRoot[root].grants[agent]);
      PassedGrantIsChecked(cfg, now, actions, ts.byRoot[root].grants[agent]);
    }
  }

  /** And so was whatever a token was minted under. */
  lemma MintedUnderChecked(cfg: Config, now: int, actions: seq<Action>, k: nat)
    requires Inverts(cfg.codec) && k < |ServerGuarantees.Reached(cfg, now, actions).issued|
    ensures var i := ServerGuarantees.Reached(cfg, now, actions).issued[k];
      PsaChecked(cfg, now, actions, i.psa) && GrantChecked(cfg, now, actions, i.grant)
  {
    ReachedIsJudged(cfg, now, actions);
    var v, i := PastOf(cfg, now, actions), ServerGuarantees.Reached(cfg, now, actions).issued[k];
    var ok := (j: Issue) => IssueJudged(v, j);
    assert ok(i);
    PassedIsChecked(cfg, now, actions, i.psa);
    PassedGrantIsChecked(cfg, now, actions, i.grant);
  }

  /** A handle that is revoked before anything on it was ever in order is never minted under. */
  lemma RevokedBeforeAdmissionNeverMints(cfg: Config, now: int, before: seq<Action>, after: seq<Action>,
                                         root: string, nonce: nat, k: nat)
    requires Inverts(cfg.codec) && Revoke(root, nonce) in before
    requires k < |ServerGuarantees.Reached(cfg, now, before + after).issued|
    ensures var i := ServerGuarantees.Reached(cfg, now, before + after).issued[k];
      && (i.psa.root == root && i.psa.nonce == nonce ==> PsaChecked(cfg, now, before, i.psa))
      && (i.grant.root == root && i.grant.nonce == nonce ==> GrantChecked(cfg, now, before, i.grant))
  {
    var i := ServerGuarantees.Reached(cfg, now, before + after).issued[k];
    MintedUnderChecked(cfg, now, before + after, k);
    if i.psa.root == root && i.psa.nonce == nonce {
      var n: nat :| n < |before + after| && PsaCheckedAt(cfg, now, before + after, n, i.psa);
      CheckedBeforeRevoked(before, after, n, root, nonce);
      assert PsaCheckedAt(cfg, now, before, n, i.psa);
    }
    if i.grant.root == root && i.grant.nonce == nonce {
      var n: nat :| n < |before + after| && GrantCheckedAt(cfg, now, before + after, n, i.grant);
      CheckedBeforeRevoked(before, after, n, root, nonce);
      assert GrantCheckedAt(cfg, now, before, n, i.grant);
    }
  }

  lemma CheckedBeforeRevoked(before: seq<Action>, after: seq<Action>, n: nat, root: string, nonce: nat)
    requires Revoke(root, nonce) in before && n <= |before + after| && Revoke(root, nonce) !in (before + after)[..n]
    ensures n < |before| && (before + after)[..n] == before[..n]
  {
    var whole := before + after;
    forall k | 0 <= k < n
      ensures whole[k] != Revoke(root, nonce)
    {
      assert whole[k] == whole[..n][k];
    }
    var j :| 0 <= j < |before| && before[j] == Revoke(root, nonce);
    assert whole[j] == before[j];
  }
}
