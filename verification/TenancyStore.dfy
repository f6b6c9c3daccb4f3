// store.Tenant and store.Tenants as the source keeps them: tenants behind pointers, PSA and grants overwritten in place.
module TenancyStore {
  import opened Attest
  import opened Basics
  import opened Crypto
  import Json
  import Missions
  import T = Tenancy

  class Tenant {
    const root: string
    const log: Missions.Log
    var psa: PSA
    var grants: map<string, AgentGrant>

    constructor (c: Primitives, psa: PSA)
      ensures root == psa.root && fresh(log) && log.c == c
      ensures Value() == T.NewTenant(psa)
    {
      this.root := psa.root;
      this.psa := psa;
      this.grants := map[];
      this.log := new Missions.Log(c);
    }

    ghost function Value(): T.Tenant
      reads this, log
    {
      T.Tenant(root, psa, grants, log.byAgent)
    }
  }

  method FirstCoveredKey(psa: PSA, keyThumbs: seq<string>) returns (covered: string)
    ensures covered == T.CoveredKey(psa, keyThumbs)
  {
    covered := "";
    for i := 0 to |keyThumbs|
      invariant covered == "" && T.CoveredKey(psa, keyThumbs) == T.CoveredKey(psa, keyThumbs[i..])
    {
      var found := Contains(psa.keyThumbprints.Items(), keyThumbs[i]);
      if found {
        return keyThumbs[i];
      }
    }
  }

  /** The half of the onboarding ceremony that only looks. */
  method CheckOnboarding(c: Primitives, registry: Registry, now: int, psa: PSA, issuerURL: string, keyThumbs: seq<string>)
    returns (error: Option<T.OnboardError>)
    ensures error == T.OnboardCheck(c, registry, now, psa, issuerURL, keyThumbs)
  {
    var covered := FirstCoveredKey(psa, keyThumbs);
    if covered == "" {
      return Some(T.CoversNoKey);
    }
    var refusal := VerifyPSA(c, registry, now, psa, issuerURL, covered);
    error := if refusal.Some? then Some(T.Invalid(refusal.value)) else None;
  }

  class Tenants {
    const c: Primitives
    var byRoot: map<string, Tenant>
    var byAgent: map<string, string>
    var byGrantS256: map<string, AgentGrant>

    constructor (c: Primitives)
      ensures this.c == c && Valid() && View() == T.EMPTY && byRoot == map[]
    {
      this.c := c;
      byRoot := map[];
      byAgent := map[];
      byGrantS256 := map[];
    }

    /** Tenants are filed under their own root, so different roots are different objects; and so are their logs. */
    ghost predicate Valid()
      reads this
    {
      && (forall r :: r in byRoot ==> byRoot[r].root == r && byRoot[r].log.c == c)
      && (forall r, q :: r in byRoot && q in byRoot && r != q ==> byRoot[r].log != byRoot[q].log)
    }

    ghost predicate Files(t: Tenant)
      reads this
    {
      t.root in byRoot && byRoot[t.root] == t
    }

    /** The agent has a tenant, and that tenant has a grant for it. */
    ghost predicate Knows(agent: string)
      reads this, byRoot.Values
    {
      agent in byAgent && byAgent[agent] in byRoot && agent in byRoot[byAgent[agent]].grants
    }

    ghost function View(): T.Tenants
      reads this, byRoot.Values, set r | r in byRoot :: byRoot[r].log
    {
      T.Tenants(map r | r in byRoot :: byRoot[r].Value(), byAgent, byGrantS256)
    }

    /** Tenants filed under other roots are other objects, so a change to one of them shows at its root only. */
    twostate lemma OneTenantChanged(t: Tenant)
      requires old(Valid()) && byRoot == old(byRoot) && Files(t)
      requires forall r :: r in byRoot && r != t.root ==> unchanged(byRoot[r]) && unchanged(byRoot[r].log)
      ensures View().byRoot == old(View()).byRoot[t.root := t.Value()]
    {
    }

    twostate lemma UnfiledIsUnseen(t: Tenant)
      requires old(Valid()) && byRoot == old(byRoot) && !Files(t)
      requires forall r :: r in byRoot ==> unchanged(byRoot[r]) && unchanged(byRoot[r].log)
      ensures View().byRoot == old(View()).byRoot
    {
    }

    method Onboard(t: Tenant)
      requires Valid() && t.log.c == c
      requires t.root !in byRoot ==> forall r :: r in byRoot ==> byRoot[r].log != t.log
      modifies this, byRoot.Values
      ensures Valid()
      ensures View() == T.Onboard(old(View()), old(t.Value()))
      ensures byRoot == if t.root in old(byRoot) then old(byRoot) else old(byRoot)[t.root := t]
      ensures forall agent :: old(Knows(agent)) ==> Knows(agent)
    {
      if t.root in byRoot {
        byRoot[t.root].psa := t.psa;
        OneTenantChanged(byRoot[t.root]);
      } else {
        byRoot := byRoot[t.root := t];
        assert View().byRoot == old(View().byRoot)[t.root := t.Value()];
      }
    }

    method ByRoot(root: string) returns (t: Tenant?)
      requires Valid()
      ensures t == if root in byRoot then byRoot[root] else null
      ensures t != null <==> root in View().byRoot
      ensures t != null ==> Files(t) && t.Value() == View().byRoot[root]
    {
      t := if root in byRoot then byRoot[root] else null;
    }

    method ByAgent(agentID: string) returns (t: Tenant?)
      requires Valid()
      ensures T.ByAgent(View(), agentID) == if t == null then None else Some(t.Value())
      ensures t != null ==> Files(t)
      ensures View() == old(View())
    {
      if agentID !in byAgent {
        return null;
      }
      var root := byAgent[agentID];
      t := if root in byRoot then byRoot[root] else null;
    }

    /** Enroll; false when the agent is bound to a different root. A tenant that is not filed here changes unseen. */
    method Enroll(agentID: string, t: Tenant, g: AgentGrant) returns (ok: bool)
      requires Valid()
      modifies this, t
      ensures Valid() && byRoot == old(byRoot)
      ensures ok <==> !(agentID in old(byAgent) && old(byAgent)[agentID] != t.root)
      ensures t.Value() == if ok then old(t.Value()).(grants := old(t.grants)[agentID := g]) else old(t.Value())
      ensures forall agent :: old(Knows(agent)) ==> Knows(agent)
      ensures !ok ==> View() == old(View())
      ensures ok && Files(t) ==> T.Enroll(c, old(View()), agentID, t.root, g) == Some(View())
      ensures ok && !Files(t) ==>
        View() == T.Tenants(old(View()).byRoot, old(byAgent)[agentID := t.root], old(byGrantS256)[GrantHash(c, g) := g])
    {
      if agentID in byAgent && byAgent[agentID] != t.root {
        return false;
      }
      Bind(agentID, t, g);
      ok := true;
    }

    /** The writes of an enrolment that is not refused. */
    method Bind(agentID: string, t: Tenant, g: AgentGrant)
      requires Valid()
      modifies this, t
      ensures Valid() && byRoot == old(byRoot)
      ensures byAgent == old(byAgent)[agentID := t.root] && byGrantS256 == old(byGrantS256)[GrantHash(c, g) := g]
      ensures t.Value() == old(t.Value()).(grants := old(t.grants)[agentID := g])
      ensures forall agent :: old(Knows(agent)) && agent != agentID ==> Knows(agent)
      ensures old(Knows(agentID)) && old(byAgent)[agentID] == t.root ==> Knows(agentID)
      ensures View().byRoot == if Files(t) then old(View()).byRoot[t.root := t.Value()] else old(View()).byRoot
    {
      byAgent := byAgent[agentID := t.root];
      t.grants := t.grants[agentID := g];
      byGrantS256 := byGrantS256[GrantHash(c, g) := g];
      if t.root in byRoot && byRoot[t.root] == t {
        OneTenantChanged(t);
      } else {
        UnfiledIsUnseen(t);
      }
    }

    /** Enroll with a tenant filed here, and if it is not refused, log it. */
    method EnrollAndLog(agentID: string, t: Tenant, g: AgentGrant, e: Missions.Entry) returns (ok: bool)
      requires Valid() && Files(t)
      modifies this, t, t.log
      ensures Valid() && byRoot == old(byRoot)
      ensures forall agent :: old(Knows(agent)) ==> Knows(agent)
      ensures ok <==> T.Enroll(c, old(View()), agentID, t.root, g).Some?
      ensures View() == if ok then T.AppendLog(c, T.Enroll(c, old(View()), agentID, t.root, g).value, t.root, agentID, e)
                        else old(View())
    {
      ok := Enroll(agentID, t, g);
      if ok {
        AppendToLog(t, agentID, e);
      }
    }

    /** tenant.Log().Append. */
    method AppendToLog(t: Tenant, agent: string, e: Missions.Entry)
      requires Valid() && Files(t)
      modifies t.log
      ensures Valid() && View() == T.AppendLog(c, old(View()), t.root, agent, e)
      ensures forall agent :: old(Knows(agent)) ==> Knows(agent)
    {
      t.log.Append(agent, e);
      OneTenantChanged(t);
    }

    /**
     * What a verifier that asks for a hash relies on: nothing is found under a hash it does not have, and every grant
     * that some tenant holds is found under its own, as itself or as one that collides with it.
     */
    method GrantByS256(s256: string) returns (g: Option<AgentGrant>)
      ensures g.Some? && T.HashesRight(c, View()) ==> GrantHash(c, g.value) == s256
      ensures forall r, agent ::
        T.GrantsNamed(c, View()) && T.HashesRight(c, View()) && T.HoldsGrant(View(), r, agent)
        && GrantHash(c, View().byRoot[r].grants[agent]) == s256 ==>
          && g.Some?
          && (g.value == View().byRoot[r].grants[agent]
              || Collision(c.sha256, {Json.Marshal(GrantJson(g.value))},
                   {Json.Marshal(GrantJson(View().byRoot[r].grants[agent]))}))
      ensures g.Some? <==> s256 in View().byGrantS256
      ensures g.Some? ==> View().byGrantS256[s256] == g.value
    {
      g := if s256 in byGrantS256 then Some(byGrantS256[s256]) else None;
      forall r, agent | T.GrantsNamed(c, View()) && T.HashesRight(c, View()) && T.HoldsGrant(View(), r, agent)
                        && GrantHash(c, View().byRoot[r].grants[agent]) == s256
        ensures g.Some?
        ensures g.value == View().byRoot[r].grants[agent]
          || Collision(c.sha256, {Json.Marshal(GrantJson(g.value))},
               {Json.Marshal(GrantJson(View().byRoot[r].grants[agent]))})
      {
        GrantHashPins(c, g.value, View().byRoot[r].grants[agent]);
      }
    }

    /** The onboarding ceremony: find a covered key, verify, admit, and hand back the tenant that is filed. */
    method VerifyAndOnboard(registry: Registry, now: int, psa: PSA, issuerURL: string, keyThumbs: seq<string>)
      returns (t: Tenant?, error: Option<T.OnboardError>)
      requires Valid()
      modifies this, byRoot.Values
      ensures Valid()
      ensures error == T.OnboardCheck(c, registry, now, psa, issuerURL, keyThumbs)
      ensures forall agent :: old(Knows(agent)) ==> Knows(agent)
      ensures error.Some? ==> t == null && View() == old(View())
      ensures error.None? ==>
        && View() == T.Onboard(old(View()), T.NewTenant(psa))
        && t != null && psa.root in byRoot && t == byRoot[psa.root]
    {
      error := CheckOnboarding(c, registry, now, psa, issuerURL, keyThumbs);
      if error.Some? {
        return null, error;
      }
      t := Admit(psa);
    }

    /** The half of the ceremony that changes the store; an onboarded root's candidate is dropped again. */
    method Admit(psa: PSA) returns (t: Tenant)
      requires Valid()
      modifies this, byRoot.Values
      ensures Valid()
      ensures View() == T.Onboard(old(View()), T.NewTenant(psa))
      ensures psa.root in byRoot && t == byRoot[psa.root]
      ensures forall agent :: old(Knows(agent)) ==> Knows(agent)
    {
      var candidate := new Tenant(c, psa);
      assert forall agent :: old(Knows(agent)) ==> Knows(agent);
      Onboard(candidate);
      assert View() == T.Onboard(old(View()), T.NewTenant(psa));
      var live := ByRoot(psa.root);
      t := live;
    }
  }
}
