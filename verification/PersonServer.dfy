// internal/server: the handlers over the shared stores as objects on the heap. Each method is one uninterrupted
// handler; what it leaves is said with the functions of Handlers, which are runs of the interleaved server.
module PersonServer {
  import opened Attest
  import opened Basics
  import opened Consent
  import ConsentStore
  import Runs = ConsentRuns
  import opened Crypto
  import Eip712
  import H = Handlers
  import Missions
  import Revocation
  import opened Server
  import Tenancy
  import TenancyStore
  import opened Tokens

  method CollectKeyThumbs(c: Primitives, keys: seq<IssuerKey>) returns (thumbs: seq<string>)
    ensures thumbs == Thumbprints(c, keys)
    ensures Readable(c.quote) ==> |thumbs| == |keys| && forall i :: 0 <= i < |keys| ==> OnlyKey(c, keys[i].pub, thumbs[i])
  {
    thumbs := [];
    for i := 0 to |keys|
      invariant |thumbs| == i
      invariant forall j :: 0 <= j < i ==> thumbs[j] == Thumbprint(c, keys[j].pub)
    {
      thumbs := thumbs + [Thumbprint(c, keys[i].pub)];
    }
    if Readable(c.quote) {
      forall i | 0 <= i < |keys|
        ensures OnlyKey(c, keys[i].pub, thumbs[i])
      {
        ThumbprintNamesKey(c, keys[i].pub);
      }
    }
  }

  class PersonServer {
    const cfg: Config
    const pending: ConsentStore.Store
    const tenants: TenancyStore.Tenants
    const registry: Revocation.MemoryRegistry

    /** The stores are well formed, and the agent of every stored request has a tenant and a grant. */
    ghost predicate Valid()
      reads pending, tenants, tenants.byRoot.Values
    {
      && pending.cfg == cfg.consent && tenants.c == cfg.consent.c && pending.Valid() && tenants.Valid()
      && (forall id :: id in pending.byID ==> tenants.Knows(pending.byID[id].terms.agentID))
    }

    lemma KnownResolves(agent: string)
      requires tenants.Knows(agent)
      ensures H.Resolves(tenants.View(), agent)
    {
    }

    twostate lemma TenantsUntouched()
      requires unchanged(tenants)
      requires forall r :: r in tenants.byRoot ==> unchanged(tenants.byRoot[r]) && unchanged(tenants.byRoot[r].log)
      ensures tenants.View() == old(tenants.View())
      ensures forall agent :: tenants.Knows(agent) == old(tenants.Knows(agent))
    {
    }

    /** Deciding requests, whose terms never change, keeps everyone known who was. */
    twostate lemma DecidingKeepsValid()
      requires old(Valid()) && unchanged(pending) && pending.Valid() && unchanged(tenants)
      requires forall r :: r in tenants.byRoot ==> unchanged(tenants.byRoot[r]) && unchanged(tenants.byRoot[r].log)
      ensures Valid() && tenants.View() == old(tenants.View())
    {
      TenantsUntouched();
      forall id | id in pending.byID
        ensures tenants.Knows(pending.byID[id].terms.agentID)
      {
        assert old(tenants.Knows(pending.byID[id].terms.agentID));
      }
    }

    /** Changing tenants, where everyone stays known who was, keeps the server well formed. */
    twostate lemma KnowingKeepsValid()
      requires old(Valid()) && unchanged(pending) && pending.Valid() && tenants.Valid()
      requires forall agent :: old(tenants.Knows(agent)) ==> tenants.Knows(agent)
      ensures Valid()
    {
      forall id | id in pending.byID
        ensures tenants.Knows(pending.byID[id].terms.agentID)
      {
        assert old(tenants.Knows(pending.byID[id].terms.agentID));
      }
    }

    twostate lemma PendingUntouched()
      requires unchanged(pending)
      requires forall id :: id in pending.byID ==> unchanged(pending.byID[id])
      ensures pending.View() == old(pending.View()) && pending.Valid() == old(pending.Valid())
    {
    }

    ghost function Revoked(): Registry
      reads registry
    {
      Revocation.View(registry.RevokedKeys())
    }

    ghost function TenantObjects(): set<object>
      reads tenants
    {
      {tenants} + tenants.byRoot.Values + (set r | r in tenants.byRoot :: tenants.byRoot[r].log)
    }

    constructor (cfg: Config)
      ensures this.cfg == cfg && Valid()
      ensures pending.View() == map[] && pending.byCode == map[] && tenants.View() == Tenancy.EMPTY
      ensures registry.RevokedKeys() == {}
      ensures fresh(pending) && fresh(registry) && fresh(TenantObjects())
    {
      this.cfg := cfg;
      pending := new ConsentStore.Store(cfg.consent);
      tenants := new TenancyStore.Tenants(cfg.consent.c);
      registry := new Revocation.MemoryRegistry();
    }

    /** The thumbprints of the keys that this server publishes. */
    method OwnThumbs() returns (thumbs: seq<string>)
      ensures thumbs == KeyThumbs(cfg)
    {
      thumbs := CollectKeyThumbs(cfg.consent.c, IssuerKeys(cfg));
    }

    method Onboard(psa: PSA, now: int) returns (error: Option<Tenancy.OnboardError>)
      requires Valid()
      modifies tenants, tenants.byRoot.Values
      ensures Valid()
      ensures error == Tenancy.OnboardCheck(cfg.consent.c, old(Revoked()), now, psa, cfg.issuerURL, KeyThumbs(cfg))
      ensures tenants.View() ==
        if error.Some? then old(tenants.View()) else Tenancy.Onboard(old(tenants.View()), Tenancy.NewTenant(psa))
    {
      var thumbs := OwnThumbs();
      var t;
      t, error := tenants.VerifyAndOnboard(Revocation.View(registry.RevokedKeys()), now, psa, cfg.issuerURL, thumbs);
      KnowingKeepsValid();
    }

    /** What the pages that verifiers read show: the PSA a tenant holds now, the grant with this content hash. */
    method ServePSA(root: string) returns (psa: Option<PSA>)
      requires Valid()
      ensures psa == PsaPage(tenants.View(), root)
    {
      var t := tenants.ByRoot(root);
      psa := if t == null then None else Some(t.psa);
    }

    method ServeGrant(s256: string) returns (g: Option<AgentGrant>)
      requires Valid()
      ensures g == GrantPage(tenants.View(), s256)
      ensures Tenancy.HashesRight(cfg.consent.c, tenants.View()) && g.Some? ==> GrantHash(cfg.consent.c, g.value) == s256
    {
      g := tenants.GrantByS256(s256);
    }

    /** One tenant's bundle: its PSA and its whole mission log. */
    method Export(root: string) returns (bundle: Option<(PSA, Missions.Logs)>)
      requires Valid()
      ensures bundle.Some? <==> root in tenants.View().byRoot
      ensures bundle.Some? ==> bundle.value == (tenants.View().byRoot[root].psa, tenants.View().byRoot[root].log)
    {
      var t := tenants.ByRoot(root);
      if t == null {
        return None;
      }
      var log := t.log.Export();
      bundle := Some((t.psa, log));
    }

    method EnrollAgent(agent: string, thumb: string, g: AgentGrant, now: int) returns (ok: bool)
      requires Valid()
      modifies TenantObjects()
      ensures Valid() && tenants.View() == H.Enrolled(cfg, old(Revoked()), now, old(tenants.View()), agent, thumb, g)
      ensures ok <==> H.Admits(cfg, old(Revoked()), now, old(tenants.View()), agent, thumb, g)
    {
      var t := tenants.ByRoot(g.root);
      if t == null {
        return false;
      }
      var refusal := VerifyAgentGrant(cfg.consent.c, Revocation.View(registry.RevokedKeys()), now, g, t.root, agent, thumb);
      if refusal.Some? {
        return false;
      }
      ok := tenants.EnrollAndLog(agent, t, g, LogEntry(cfg, "agent_enrolled", "", now));
    }

    /** The lookups and checks of a token call, before it changes anything. */
    method CheckRequest(agent: string, thumb: string, resourceToken: string, now: int, draw: Draw)
      returns (terms: Option<Terms>, t: TenancyStore.Tenant?)
      requires Valid()
      ensures terms == H.RequestFor(cfg, now, old(tenants.View()), agent, thumb, resourceToken, draw)
      ensures tenants.View() == old(tenants.View()) && pending.View() == old(pending.View())
      ensures terms.Some? ==>
        && terms.value.createdAt == now && terms.value.expiresAt == now + 600_000_000_000
        && t != null && tenants.Files(t) && agent in tenants.byAgent && tenants.byAgent[agent] == t.root
        && tenants.Knows(agent) && terms.value.agentID == agent
    {
      t := tenants.ByAgent(agent);
      if t == null || agent !in t.grants || t.grants[agent].agentThumbprint != thumb {
        return None, t;
      }
      var grant := t.grants[agent];
      var res := ParseResourceToken(cfg, resourceToken);
      if res.None? || grant.missionScopeS256 == "" {
        return None, t;
      }
      terms := Some(NewTerms(agent, grant, res.value, TierFor(t.psa.scope, res.value.amountWei), now, draw));
    }

    /** A token call: refused, or a request is filed that waits for approval at the returned code. */
    method Token(agent: string, thumb: string, resourceToken: string, now: int, draw: Draw) returns (code: Option<string>)
      requires Valid()
      modifies pending, TenantObjects()
      ensures Valid()
      ensures code.Some? <==> H.RequestFor(cfg, now, old(tenants.View()), agent, thumb, resourceToken, draw).Some?
      ensures code.None? ==> pending.View() == old(pending.View()) && tenants.View() == old(tenants.View())
      ensures code.Some? ==>
        var terms := H.RequestFor(cfg, now, old(tenants.View()), agent, thumb, resourceToken, draw).value;
        && code == Some(terms.code)
        && terms.agentID == agent && terms.createdAt == now && terms.expiresAt == now + 600_000_000_000
        && pending.View() == old(pending.View())[terms.id := Entry(terms, Pending, [])]
        && pending.byCode == old(pending.byCode)[terms.code := terms.id]
        && tenants.View() == H.RequestLogged(cfg, now, old(tenants.View()), agent, terms.id)
    {
      var terms, t := CheckRequest(agent, thumb, resourceToken, now, draw);
      if terms.None? {
        return None;
      }
      FileRequest(terms.value, t, now);
      code := Some(terms.value.code);
    }

    method FileRequest(terms: Terms, t: TenancyStore.Tenant, now: int)
      requires Valid() && tenants.Files(t) && tenants.Knows(terms.agentID)
      requires terms.agentID in tenants.byAgent && tenants.byAgent[terms.agentID] == t.root
      modifies pending, t.log
      ensures Valid()
      ensures pending.View() == old(pending.View())[terms.id := Entry(terms, Pending, [])]
      ensures pending.byCode == old(pending.byCode)[terms.code := terms.id]
      ensures tenants.View() == H.RequestLogged(cfg, now, old(tenants.View()), terms.agentID, terms.id)
    {
      CreateRequest(terms);
      label Created:
      tenants.AppendToLog(t, terms.agentID, LogEntry(cfg, "token_request", terms.id, now));
      PendingUntouched@Created();
    }

    method CreateRequest(terms: Terms)
      requires Valid() && tenants.Knows(terms.agentID)
      modifies pending
      ensures Valid() && tenants.View() == old(tenants.View())
      ensures forall agent :: tenants.Knows(agent) == old(tenants.Knows(agent))
      ensures pending.View() == old(pending.View())[terms.id := Entry(terms, Pending, [])]
      ensures pending.byCode == old(pending.byCode)[terms.code := terms.id]
    {
      var req := new ConsentStore.Request(terms);
      pending.Create(req);
      TenantsUntouched();
    }

    /** The approval page: a click approves a routine request and cannot move an elevated one. */
    method ApprovePage(code: string, now: int) returns (err: Option<Error>)
      requires Valid()
      modifies pending.byID.Values
      ensures Valid()
      ensures (pending.View(), err) ==
        if code in pending.byCode && old(pending.View())[pending.byCode[code]].terms.tier == Elevated
        then (old(pending.View()), None)
        else ConsentStore.Sequential(cfg.consent, old(pending.View()), pending.byCode, now, Runs.ApproveRoutine(code))
    {
      var req := pending.ByCode(code);
      if req == null {
        return Some(UnknownCode);
      }
      if req.terms.tier == Elevated {
        return None;
      }
      err := pending.ApproveRoutine(code, now);
      DecidingKeepsValid();
    }

    /** The root of the tenant of the agent whose request waits at this code. */
    method RootAtCode(code: string) returns (known: bool, root: Option<string>)
      requires Valid()
      ensures known <==> code in pending.byCode
      ensures root == H.RootOfCode(old(pending.View()), pending.byCode, old(tenants.View()), code)
      ensures pending.View() == old(pending.View())
    {
      var req := pending.ByCode(code);
      if req == null {
        return false, None;
      }
      var t := tenants.ByAgent(req.terms.agentID);
      known, root := true, if t == null then None else Some(t.root);
    }

    /**
     * A posted root signature; the root it must recover to is that of the requesting agent's tenant. Without such a
     * tenant the call is refused before it reaches the store.
     */
    method ApproveElevated(code: string, sig: Bytes, now: int) returns (root: Option<string>, err: Option<Error>)
      requires Valid()
      modifies pending.byID.Values
      ensures Valid()
      ensures root == H.RootOfCode(old(pending.View()), pending.byCode, old(tenants.View()), code)
      ensures root.None? ==>
        pending.View() == old(pending.View()) && err == if code in pending.byCode then None else Some(UnknownCode)
      ensures root.Some? ==>
        var r := ConsentStore.Sequential(cfg.consent, old(pending.View()), pending.byCode, now,
                   Runs.ApproveElevated(code, root.value, sig));
        pending.View() == r.0 && err == r.1
      ensures root.Some? && Eip712.AddressBytes(root.value).Some? && code in pending.byCode && err.None? ==>
        StepUpSigned(cfg.consent.c, cfg.consent.chainID, cfg.consent.registry, pending.byID[pending.byCode[code]].terms,
          root.value, sig)
    {
      var known;
      known, root := RootAtCode(code);
      if root.None? {
        return root, if known then None else Some(UnknownCode);
      }
      err := ApproveAs(code, root.value, sig, now);
    }

    /** The step-up call itself, under a root that was looked up. */
    method ApproveAs(code: string, root: string, sig: Bytes, now: int) returns (err: Option<Error>)
      requires Valid()
      modifies pending.byID.Values
      ensures Valid()
      ensures (pending.View(), err) ==
        ConsentStore.Sequential(cfg.consent, old(pending.View()), pending.byCode, now, Runs.ApproveElevated(code, root, sig))
      ensures Eip712.AddressBytes(root).Some? && code in pending.byCode && err.None? ==>
        StepUpSigned(cfg.consent.c, cfg.consent.chainID, cfg.consent.registry, pending.byID[pending.byCode[code]].terms,
          root, sig)
    {
      err := pending.ApproveElevated(code, root, sig, now);
      DecidingKeepsValid();
    }

    /** The token in the answer is that of the issue, signed. */
    predicate Answers(token: Option<string>, i: Option<Issue>) {
      token == match i case None => None case Some(x) => Some(SignClaims(cfg.key, x.claims))
    }

    /** `finish`: mint for a request under a tenant and whichever grant the caller holds, and log what was minted. */
    method Finish(req: ConsentStore.Request, t: TenancyStore.Tenant, grant: AgentGrant, now: int, draw: Draw)
      returns (token: Option<string>)
      requires Valid() && tenants.Files(t)
      modifies t.log
      ensures Valid()
      ensures Answers(token, H.IssueUnder(cfg, now, t.root, old(t.psa), grant, old(req.Value()), draw))
      ensures tenants.View() ==
        if token.None? then old(tenants.View())
        else Tenancy.AppendLog(cfg.consent.c, old(tenants.View()), t.root, req.terms.agentID,
               LogEntry(cfg, "token_issued", req.terms.id, now))
    {
      token := MintFor(Entry(req.terms, req.state, req.stepUpSig), t.root, t.psa, grant, now, draw);
      if token.Some? {
        tenants.AppendToLog(t, req.terms.agentID, LogEntry(cfg, "token_issued", req.terms.id, now));
      }
    }

    method MintFor(e: Entry, root: string, psa: PSA, grant: AgentGrant, now: int, draw: Draw)
      returns (token: Option<string>)
      ensures Answers(token, H.IssueUnder(cfg, now, root, psa, grant, e, draw))
      ensures tenants.View() == old(tenants.View())
    {
      var stepUp := StepUpFor(cfg, e.terms, e.stepUpSig);
      var minted := Mint(cfg.consent.c, cfg.key, MintInputFor(cfg, e.terms, psa, root, grant, stepUp), now, draw.jti);
      token := if minted.Ok? then Some(minted.value) else None;
    }

    method LookUp(agent: string) returns (t: TenancyStore.Tenant)
      requires Valid() && tenants.Knows(agent)
      ensures tenants.Files(t) && tenants.byAgent[agent] == t.root && agent in t.grants
      ensures tenants.View() == old(tenants.View()) && tenants.View().byRoot[t.root] == t.Value()
    {
      var found := tenants.ByAgent(agent);
      t := found;
    }

    /** An approved request found by a poll: its agent's tenant and grant are looked up without a check. */
    method FinishApproved(req: ConsentStore.Request, now: int, draw: Draw) returns (token: Option<string>)
      requires Valid() && tenants.Knows(req.terms.agentID)
      modifies TenantObjects()
      ensures Valid() && pending.View() == old(pending.View()) && req.Value() == old(req.Value())
      ensures H.Resolves(old(tenants.View()), req.terms.agentID)
      ensures Answers(token, H.IssueFor(cfg, now, old(tenants.View()), old(req.Value()), draw))
      ensures tenants.View() == if token.Some? then H.IssueLogged(cfg, now, old(tenants.View()), old(req.Value()))
                                else old(tenants.View())
    {
      var agent := req.terms.agentID;
      KnownResolves(agent);
      var t := LookUp(agent);
      assert t.grants[agent] == tenants.View().byRoot[t.root].grants[agent] && t.psa == tenants.View().byRoot[t.root].psa;
      token := Finish(req, t, t.grants[agent], now, draw);
    }

    /** The state shown is the stored one, except that a pending request past its deadline shows as expired. */
    predicate ShownInTime(shown: State, stored: Entry, now: int) {
      shown == if stored.state == Pending && stored.terms.expiresAt < now then Expired else stored.state
    }

    /** The store's poll; a request of another agent is as good as none. */
    method FindOwn(agent: string, id: string, now: int) returns (req: ConsentStore.Request?)
      requires Valid()
      modifies pending.byID.Values
      ensures Valid()
      ensures req == if id in pending.byID && pending.byID[id].terms.agentID == agent then pending.byID[id] else null
      ensures req != null ==> tenants.Knows(agent)
      ensures req != null ==> ShownInTime(req.state, old(pending.View())[id], now)
      ensures tenants.View() == old(tenants.View())
      ensures pending.View() == if id in pending.byID then old(pending.View())[id := Polled(old(pending.View())[id], now)]
                                else old(pending.View())
    {
      req := pending.Poll(id, now);
      TenantsUntouched();
      if req != null {
        PolledExactly(old(pending.View())[id], now);
        assert req.state == pending.View()[id].state;
      }
      if req != null && req.terms.agentID != agent {
        req := null;
      }
    }

    /** A poll: the state found, if the request is this agent's, and the token for an approved one if Mint agrees. */
    method Poll(agent: string, id: string, now: int, draw: Draw) returns (state: Option<State>, token: Option<string>)
      requires Valid()
      modifies pending.byID.Values, TenantObjects()
      ensures Valid()
      ensures pending.View() == if id in pending.byID then old(pending.View())[id := Polled(old(pending.View())[id], now)]
                                else old(pending.View())
      ensures state == if id in pending.byID && pending.byID[id].terms.agentID == agent
                       then Some(pending.byID[id].state) else None
      ensures state.Some? ==> ShownInTime(state.value, old(pending.View())[id], now)
      ensures state != Some(Approved) ==> token == None && tenants.View() == old(tenants.View())
      ensures state == Some(Approved) ==>
        && H.Resolves(old(tenants.View()), pending.byID[id].terms.agentID)
        && Answers(token, H.IssueFor(cfg, now, old(tenants.View()), pending.byID[id].Value(), draw))
        && tenants.View() == if token.Some? then H.IssueLogged(cfg, now, old(tenants.View()), pending.byID[id].Value())
                             else old(tenants.View())
    {
      var req := FindOwn(agent, id, now);
      if req == null {
        return None, None;
      }
      assert tenants.Knows(req.terms.agentID);
      state, token := Some(req.state), None;
      if req.state == Approved {
        token := FinishApproved(req, now, draw);
      }
    }
  }
}
