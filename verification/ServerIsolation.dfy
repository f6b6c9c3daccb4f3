// Tenants are invisible to each other: what one does changes nothing the server holds for another.
module ServerIsolation {
  import opened Attest
  import opened Basics
  import opened Crypto
  import Missions
  import Revocation
  import opened Server
  import ServerGuarantees
  import Tenancy

  /** The next step of a handler here changes the tenant of this root. */
  predicate Touches(p: Point, root: string) {
    match p
    case OnboardVerified(psa) => psa.root == root
    case EnrollVerified(_, g) => g.root == root
    case ToLog(_, r, _) => r == root
    case _ => false
  }

  /** PSA, grants and log of this root are as they were, or it is no tenant in either state. */
  ghost predicate SameTenant(ts: Tenancy.Tenants, us: Tenancy.Tenants, root: string) {
    if root in ts.byRoot then root in us.byRoot && us.byRoot[root] == ts.byRoot[root] else root !in us.byRoot
  }

  lemma BeginTouchesNone(cfg: Config, s: System, thread: nat, call: Call)
    ensures DoBegin(cfg, s, thread, call).tenants == s.tenants
  {
  }

  lemma EnrollTouchesOwn(c: Primitives, ts: Tenancy.Tenants, agent: string, g: AgentGrant, root: string)
    requires g.root in ts.byRoot && Tenancy.Enroll(c, ts, agent, g.root, g).Some? && g.root != root
    ensures SameTenant(ts, Tenancy.Enroll(c, ts, agent, g.root, g).value, root)
  {
  }

  lemma TenancyTouchesOwn(cfg: Config, s: System, thread: nat, p: Point, root: string)
    requires p.OnboardVerified? || p.EnrollFound? || p.EnrollVerified? || p.ToLog?
    requires !Touches(p, root)
    ensures SameTenant(s.tenants, AdvanceTenancy(cfg, s, thread, p).tenants, root)
  {
    match p
    case EnrollVerified(agent, g) =>
      if g.root in s.tenants.byRoot && Tenancy.Enroll(cfg.consent.c, s.tenants, agent, g.root, g).Some? {
        EnrollTouchesOwn(cfg.consent.c, s.tenants, agent, g, root);
      }
    case EnrollFound(_, _, _) => assert AdvanceTenancy(cfg, s, thread, p).tenants == s.tenants;
    case _ =>
  }

  lemma OthersTouchNone(cfg: Config, s: System, thread: nat, draw: Draw)
    requires thread in s.points
    requires var p := s.points[thread]; !(p.OnboardVerified? || p.EnrollFound? || p.EnrollVerified? || p.ToLog?)
    ensures DoAdvance(cfg, s, thread, draw).tenants == s.tenants
  {
  }

  /** The action is a step of a handler that is about to change this root's tenant. */
  predicate ActsFor(s: System, a: Action, root: string) {
    a.Advance? && a.thread in s.points && Touches(s.points[a.thread], root)
  }

  /** A step changes a tenant only as the step of a handler that holds its root. */
  lemma StepTouchesOwn(cfg: Config, s: System, a: Action, root: string)
    requires !ActsFor(s, a, root)
    ensures SameTenant(s.tenants, Step(cfg, s, a).tenants, root)
  {
    match a
    case Begin(thread, call) => BeginTouchesNone(cfg, s, thread, call);
    case Advance(thread, draw) =>
      if thread in s.points {
        var p := s.points[thread];
        if p.OnboardVerified? || p.EnrollFound? || p.EnrollVerified? || p.ToLog? {
          TenancyTouchesOwn(cfg, s, thread, p, root);
        } else {
          OthersTouchNone(cfg, s, thread, draw);
        }
      }
    case _ =>
  }

  /** No action of the run acts for this root. */
  ghost predicate RunsWithout(cfg: Config, s: System, actions: seq<Action>, root: string)
    decreases |actions|
  {
    actions != [] ==> !ActsFor(s, actions[0], root) && RunsWithout(cfg, Step(cfg, s, actions[0]), actions[1..], root)
  }

  lemma {:induction false} RunTouchesOwn(cfg: Config, s: System, actions: seq<Action>, root: string)
    requires RunsWithout(cfg, s, actions, root)
    ensures SameTenant(s.tenants, Run(cfg, s, actions).tenants, root)
    decreases |actions|
  {
    if actions != [] {
      StepTouchesOwn(cfg, s, actions[0], root);
      RunTouchesOwn(cfg, Step(cfg, s, actions[0]), actions[1..], root);
    }
  }

  /**
   * Isolation: over any run in which no handler acts for a root, the tenant of that root keeps its PSA, grants and
   * whole log, and every handle of it that is not revoked itself is answered as before, whatever the others do:
   * onboard, enrol, ask, approve, mint, log or revoke.
   */
  lemma OthersAreInvisible(cfg: Config, s: System, actions: seq<Action>, root: string, nonce: nat,
                           chain: int, contract: string)
    requires RunsWithout(cfg, s, actions, root)
    ensures var t := Run(cfg, s, actions);
      && SameTenant(s.tenants, t.tenants, root)
      && (Revoke(root, nonce) !in actions ==>
            Revocation.View(t.revoked)(chain, contract, root, nonce)
              == Revocation.View(s.revoked)(chain, contract, root, nonce))
  {
    RunTouchesOwn(cfg, s, actions, root);
    ServerGuarantees.RevokedByRun(cfg, s, actions, root, nonce);
  }

  /**
   * The one way tenants meet: an enrolment depends on its own tenant and on whether the agent is bound to another
   * root, and on nothing else that any other tenant did.
   */
  lemma EnrollmentSeesOnlyBinding(c: Primitives, ts: Tenancy.Tenants, us: Tenancy.Tenants, agent: string, g: AgentGrant)
    requires g.root in ts.byRoot && SameTenant(ts, us, g.root)
    requires (agent in ts.byAgent && ts.byAgent[agent] != g.root) <==> (agent in us.byAgent && us.byAgent[agent] != g.root)
    ensures var more, most := Tenancy.Enroll(c, ts, agent, g.root, g), Tenancy.Enroll(c, us, agent, g.root, g);
      && (more.Some? <==> most.Some?)
      && (more.Some? <==> !(agent in ts.byAgent && ts.byAgent[agent] != g.root))
      && (more.Some? ==> SameTenant(more.value, most.value, g.root))
  {
  }

  /** Onboarding and logging depend on their own tenant alone. */
  lemma OnboardingAndLoggingSeeOwn(c: Primitives, ts: Tenancy.Tenants, us: Tenancy.Tenants, psa: PSA,
                                   agent: string, e: Missions.Entry)
    requires SameTenant(ts, us, psa.root)
    ensures SameTenant(Tenancy.Onboard(ts, Tenancy.NewTenant(psa)), Tenancy.Onboard(us, Tenancy.NewTenant(psa)), psa.root)
    ensures SameTenant(Tenancy.AppendLog(c, ts, psa.root, agent, e), Tenancy.AppendLog(c, us, psa.root, agent, e), psa.root)
  {
  }
}
