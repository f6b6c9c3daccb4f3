// internal/store/tenants.go: the tenancy store as a value, its operations, and the indexes they keep consistent.
module Tenancy {
  import opened Attest
  import opened Basics
  import opened Crypto
  import Json
  import Missions

  datatype Tenant = Tenant(root: string, psa: PSA, grants: map<string, AgentGrant>, log: Missions.Logs)

  datatype Tenants = Tenants(
    byRoot: map<string, Tenant>,
    byAgent: map<string, string>,
    byGrantS256: map<string, AgentGrant>
  )

  const EMPTY := Tenants(map[], map[], map[])

  function NewTenant(psa: PSA): Tenant {
    Tenant(psa.root, psa, map[], map[])
  }

  /** A root that is already a tenant gets its PSA replaced; grants and log hang off the root and stay. */
  function Onboard(s: Tenants, t: Tenant): Tenants {
    if t.root in s.byRoot then s.(byRoot := s.byRoot[t.root := s.byRoot[t.root].(psa := t.psa)])
    else s.(byRoot := s.byRoot[t.root := t])
  }

  function ByAgent(s: Tenants, agent: string): Option<Tenant> {
    if agent in s.byAgent && s.byAgent[agent] in s.byRoot then Some(s.byRoot[s.byAgent[agent]]) else None
  }

  /** None: the agent is bound to a different root. */
  function Enroll(c: Primitives, s: Tenants, agent: string, root: string, g: AgentGrant): Option<Tenants>
    requires root in s.byRoot
  {
    if agent in s.byAgent && s.byAgent[agent] != root then None
    else
      var t := s.byRoot[root];
      Some(Tenants(
        s.byRoot[root := t.(grants := t.grants[agent := g])],
        s.byAgent[agent := root],
        s.byGrantS256[GrantHash(c, g) := g]))
  }

  function AppendLog(c: Primitives, s: Tenants, root: string, agent: string, e: Missions.Entry): Tenants {
    if root !in s.byRoot then s
    else
      var t := s.byRoot[root];
      s.(byRoot := s.byRoot[root := t.(log := Missions.AppendedTo(c, t.log, agent, e))])
  }

  /** The first of this server's key thumbprints that the PSA covers; empty when it covers none. */
  function CoveredKey(psa: PSA, thumbs: seq<string>): string {
    if thumbs == [] then ""
    else if thumbs[0] in psa.keyThumbprints.Items() then thumbs[0]
    else CoveredKey(psa, thumbs[1..])
  }

  datatype OnboardError = CoversNoKey | Invalid(refusal: Refusal)

  function OnboardCheck(c: Primitives, registry: Registry, now: int, psa: PSA, issuer: string, thumbs: seq<string>)
    : Option<OnboardError>
  {
    var covered := CoveredKey(psa, thumbs);
    if covered == "" then Some(CoversNoKey)
    else
      match VerifyPSA(c, registry, now, psa, issuer, covered)
      case Some(refusal) => Some(Invalid(refusal))
      case None => None
  }

  // ---------------------------------------------------------------- index consistency

  /** A tenant is filed under its own root, and so is the PSA it currently holds. */
  ghost predicate RootsFiled(s: Tenants) {
    forall r :: r in s.byRoot ==> s.byRoot[r].root == r && s.byRoot[r].psa.root == r
  }

  predicate HoldsGrant(s: Tenants, root: string, agent: string) {
    root in s.byRoot && agent in s.byRoot[root].grants
  }

  /** An agent is bound to a root exactly when that tenant, and so no other, holds a grant for it. */
  ghost predicate AgentsBound(s: Tenants) {
    forall agent, root :: (agent in s.byAgent && s.byAgent[agent] == root) <==> HoldsGrant(s, root, agent)
  }

  /** A held grant names its tenant's root and the agent it is held for, and can be found by its content hash. */
  ghost predicate GrantsNamed(c: Primitives, s: Tenants) {
    forall root, agent :: HoldsGrant(s, root, agent) ==>
      var g := s.byRoot[root].grants[agent];
      g.root == root && g.agentIdentifier == agent && GrantHash(c, g) in s.byGrantS256
  }

  ghost predicate HashesRight(c: Primitives, s: Tenants) {
    forall h :: h in s.byGrantS256 ==> GrantHash(c, s.byGrantS256[h]) == h
  }

  ghost predicate LogsLinked(c: Primitives, s: Tenants) {
    forall r :: r in s.byRoot ==> Missions.AllLinked(c, s.byRoot[r].log)
  }

  ghost predicate Consistent(c: Primitives, s: Tenants) {
    RootsFiled(s) && AgentsBound(s) && GrantsNamed(c, s) && HashesRight(c, s) && LogsLinked(c, s)
  }

  /** Nothing that was onboarded, bound, granted or logged is ever lost; a PSA may be replaced. */
  ghost predicate Grows(s: Tenants, t: Tenants) {
    && (forall r :: r in s.byRoot ==> r in t.byRoot && Missions.Extends(s.byRoot[r].log, t.byRoot[r].log))
    && (forall agent :: agent in s.byAgent ==> agent in t.byAgent && t.byAgent[agent] == s.byAgent[agent])
    && (forall h :: h in s.byGrantS256 ==> h in t.byGrantS256)
  }

  /** Steps that leave every grant where it is keep the agent and grant indexes right. */
  lemma GrantIndexesStay(c: Primitives, s: Tenants, t: Tenants)
    requires AgentsBound(s) && GrantsNamed(c, s)
    requires t.byAgent == s.byAgent && t.byGrantS256 == s.byGrantS256
    requires forall r :: r in s.byRoot ==> r in t.byRoot && t.byRoot[r].grants == s.byRoot[r].grants
    requires forall r :: r in t.byRoot && r !in s.byRoot ==> t.byRoot[r].grants == map[]
    ensures AgentsBound(t) && GrantsNamed(c, t)
  {
    forall root, agent
      ensures HoldsGrant(t, root, agent) <==> HoldsGrant(s, root, agent)
    {
    }
    forall root, agent | HoldsGrant(t, root, agent)
      ensures var g := t.byRoot[root].grants[agent];
        g.root == root && g.agentIdentifier == agent && GrantHash(c, g) in t.byGrantS256
    {
      assert HoldsGrant(s, root, agent);
    }
  }

  lemma OnboardKeepsRoots(s: Tenants, psa: PSA)
    requires RootsFiled(s)
    ensures RootsFiled(Onboard(s, NewTenant(psa)))
  {
  }

  lemma OnboardKeepsGrants(c: Primitives, s: Tenants, psa: PSA)
    requires AgentsBound(s) && GrantsNamed(c, s)
    ensures var t := Onboard(s, NewTenant(psa));
      AgentsBound(t) && GrantsNamed(c, t)
  {
    GrantIndexesStay(c, s, Onboard(s, NewTenant(psa)));
  }

  lemma OnboardKeepsLogs(c: Primitives, s: Tenants, psa: PSA)
    requires LogsLinked(c, s)
    ensures var t := Onboard(s, NewTenant(psa));
      LogsLinked(c, t) && Grows(s, t)
  {
  }

  lemma OnboardKeepsConsistent(c: Primitives, s: Tenants, psa: PSA)
    requires Consistent(c, s)
    ensures var t := Onboard(s, NewTenant(psa));
      Consistent(c, t) && Grows(s, t)
  {
    OnboardKeepsRoots(s, psa);
    OnboardKeepsGrants(c, s, psa);
    OnboardKeepsLogs(c, s, psa);
  }

  /** Onboarding a known root again replaces that one PSA and changes nothing else anywhere. */
  lemma ReOnboardingChangesOnePSA(s: Tenants, psa: PSA)
    requires psa.root in s.byRoot
    ensures var t := Onboard(s, NewTenant(psa));
      && t.byAgent == s.byAgent && t.byGrantS256 == s.byGrantS256
      && t.byRoot.Keys == s.byRoot.Keys
      && (forall r :: r in s.byRoot && r != psa.root ==> t.byRoot[r] == s.byRoot[r])
      && t.byRoot[psa.root].psa == psa
      && t.byRoot[psa.root].(psa := s.byRoot[psa.root].psa) == s.byRoot[psa.root]
  {
  }

  lemma EnrollBinds(c: Primitives, s: Tenants, agent: string, root: string, g: AgentGrant)
    requires AgentsBound(s) && root in s.byRoot && Enroll(c, s, agent, root, g).Some?
    ensures var t := Enroll(c, s, agent, root, g).value;
      && AgentsBound(t)
      && (forall r, a :: HoldsGrant(t, r, a) <==> HoldsGrant(s, r, a) || (r == root && a == agent))
  {
    var t := Enroll(c, s, agent, root, g).value;
    assert forall r, a :: HoldsGrant(t, r, a) <==> HoldsGrant(s, r, a) || (r == root && a == agent);
    assert forall r :: HoldsGrant(s, r, agent) ==> r == root;
  }

  lemma EnrollNames(c: Primitives, s: Tenants, agent: string, root: string, g: AgentGrant)
    requires GrantsNamed(c, s) && root in s.byRoot && Enroll(c, s, agent, root, g).Some?
    requires g.root == root && g.agentIdentifier == agent
    ensures GrantsNamed(c, Enroll(c, s, agent, root, g).value)
  {
  }

  lemma EnrollKeepsConsistent(c: Primitives, s: Tenants, agent: string, root: string, g: AgentGrant)
    requires Consistent(c, s) && root in s.byRoot && Enroll(c, s, agent, root, g).Some?
    requires g.root == root && g.agentIdentifier == agent
    ensures var t := Enroll(c, s, agent, root, g).value;
      Consistent(c, t) && Grows(s, t)
  {
    EnrollBinds(c, s, agent, root, g);
    EnrollNames(c, s, agent, root, g);
  }

  lemma LogKeepsConsistent(c: Primitives, s: Tenants, root: string, agent: string, e: Missions.Entry)
    requires Consistent(c, s) && e.prev == ""
    ensures var t := AppendLog(c, s, root, agent, e);
      Consistent(c, t) && Grows(s, t)
  {
    var t := AppendLog(c, s, root, agent, e);
    if root in s.byRoot {
      Missions.AppendGrows(c, s.byRoot[root].log, agent, e);
    }
    GrantIndexesStay(c, s, t);
  }

  /** A content hash that once resolved keeps resolving, to the same grant or to one that collides with it. */
  lemma GrantStaysResolvable(c: Primitives, s: Tenants, t: Tenants, g: AgentGrant)
    requires Grows(s, t) && HashesRight(c, t) && GrantHash(c, g) in s.byGrantS256
    ensures GrantHash(c, g) in t.byGrantS256
    ensures var found := t.byGrantS256[GrantHash(c, g)];
      found == g || Collision(c.sha256, {Json.Marshal(GrantJson(found))}, {Json.Marshal(GrantJson(g))})
  {
    GrantHashPins(c, t.byGrantS256[GrantHash(c, g)], g);
  }

}
