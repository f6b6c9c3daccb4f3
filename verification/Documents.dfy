// The three kinds of root-signed documents, and what one digest says about the document behind it.
module Documents {
  import opened Basics
  import opened Crypto
  import opened Attest
  import Consent
  import Eip712
  import Json
  import opened Text

  datatype Document =
    | PsaDoc(psa: PSA)
    | GrantDoc(grant: AgentGrant)
    | ApprovalDoc(terms: Consent.Terms, chainID: int, contract: string)

  function DomainOf(d: Document): Eip712.Field {
    match d
    case PsaDoc(p) => Domain(p.registryChain, p.registry)
    case GrantDoc(g) => Domain(g.registryChain, g.registry)
    case ApprovalDoc(_, chainID, contract) => Domain(chainID, contract)
  }

  function MessageOf(d: Document): Eip712.Field {
    match d
    case PsaDoc(p) => PsaMessage(p)
    case GrantDoc(g) => GrantMessage(g)
    case ApprovalDoc(t, _, _) => Consent.ApprovalMessage(t)
  }

  function Digest(c: Primitives, d: Document): Option<Bytes32> {
    match d
    case PsaDoc(p) => PsaDigest(c, p)
    case GrantDoc(g) => AgentGrantDigest(c, g)
    case ApprovalDoc(t, chainID, contract) => Consent.ApprovalDigest(c, t, chainID, contract)
  }

  /** Every byte string hashed while computing the digest. */
  function Hashed(c: Primitives, d: Document): set<Bytes> {
    Eip712.DigestPreimages(c, DomainOf(d), MessageOf(d))
  }

  // ---------------------------------------------------------------- agreement on the covered fields

  ghost predicate SameAddress(a: string, b: string) {
    Eip712.AddressBytes(a) == Eip712.AddressBytes(b)
  }

  /** The same unsigned 256-bit number, however it is written. */
  ghost predicate SameAmount(a: string, b: string) {
    Eip712.UintOfText(OrZero(a)) == Eip712.UintOfText(OrZero(b))
  }

  ghost predicate SamePlace(chain: int, contract: string, chain': int, contract': string) {
    chain == chain' && SameAddress(contract, contract')
  }

  ghost predicate PsasAgree(p: PSA, q: PSA) {
    && SamePlace(p.registryChain, p.registry, q.registryChain, q.registry)
    && SameAddress(p.root, q.root)
    && p.issuer == q.issuer && p.keyThumbprints == q.keyThumbprints
    && p.scope.maxTokenTTLSeconds == q.scope.maxTokenTTLSeconds
    && p.scope.allowedClaims == q.scope.allowedClaims
    && SameAmount(p.scope.paymentCapWei, q.scope.paymentCapWei)
    && SameAmount(p.scope.stepUpAboveWei, q.scope.stepUpAboveWei)
    && p.notBefore == q.notBefore && p.notAfter == q.notAfter && p.nonce == q.nonce
  }

  ghost predicate GrantsAgree(g: AgentGrant, h: AgentGrant) {
    && SamePlace(g.registryChain, g.registry, h.registryChain, h.registry)
    && SameAddress(g.root, h.root)
    && g.agentIdentifier == h.agentIdentifier && g.agentThumbprint == h.agentThumbprint
    && HexDecode(g.missionScopeS256) == HexDecode(h.missionScopeS256)
    && g.notBefore == h.notBefore && g.notAfter == h.notAfter && g.nonce == h.nonce
  }

  ghost predicate TermsAgree(t: Consent.Terms, u: Consent.Terms) {
    && t.id == u.id && t.agentID == u.agentID && t.resource == u.resource
    && SameAmount(t.amountWei, u.amountWei)
    && t.scopeReq == u.scopeReq
    && HexDecode(t.missionS256) == HexDecode(u.missionS256)
    && Unix(t.expiresAt) == Unix(u.expiresAt)
  }

  /** The same kind of document, agreeing on everything its signature covers. */
  ghost predicate Agree(a: Document, b: Document) {
    match (a, b)
    case (PsaDoc(p), PsaDoc(q)) => PsasAgree(p, q)
    case (GrantDoc(g), GrantDoc(h)) => GrantsAgree(g, h)
    case (ApprovalDoc(t, i, r), ApprovalDoc(u, j, s)) => SamePlace(i, r, j, s) && TermsAgree(t, u)
    case _ => false
  }

  // ---------------------------------------------------------------- equal meanings, equal fields

  lemma SameText(s: string, t: string)
    requires Eip712.SameMeaning(TextField(s), TextField(t))
    ensures s == t
  {
    Utf8Injective(s, t);
  }

  lemma SameList(xs: Slice<string>, ys: Slice<string>)
    requires Eip712.SameMeaning(ListField(xs), ListField(ys))
    ensures xs == ys
  {
    Json.MarshalInjective(Json.Strings(xs), Json.Strings(ys));
    Json.StringsInjective(xs, ys);
  }

  lemma SameNumber(m: int, n: int)
    requires Eip712.SameMeaning(Number(m), Number(n))
    ensures m == n
  {
    Eip712.ShowIntIsDecimal(m);
    Eip712.ShowIntIsDecimal(n);
  }

  lemma DomainsAgree(chain: int, contract: string, chain': int, contract': string)
    requires Eip712.SameType(Domain(chain, contract), Domain(chain', contract'))
    requires Eip712.SameMeaning(Domain(chain, contract), Domain(chain', contract'))
    ensures SamePlace(chain, contract, chain', contract')
  {
    var v, w := Domain(chain, contract).fields, Domain(chain', contract').fields;
    assert Eip712.SameMeaning(v[2], w[2]) && Eip712.SameMeaning(v[3], w[3]);
    SameNumber(chain, chain');
  }

  lemma ScopesAgree(s: Scope, t: Scope)
    requires Eip712.SameType(ScopeMessage(s), ScopeMessage(t))
    requires Eip712.SameMeaning(ScopeMessage(s), ScopeMessage(t))
    ensures s.maxTokenTTLSeconds == t.maxTokenTTLSeconds && s.allowedClaims == t.allowedClaims
    ensures SameAmount(s.paymentCapWei, t.paymentCapWei) && SameAmount(s.stepUpAboveWei, t.stepUpAboveWei)
  {
    var v, w := ScopeMessage(s).fields, ScopeMessage(t).fields;
    assert forall i :: 0 <= i < 4 ==> Eip712.SameMeaning(v[i], w[i]);
    assert Eip712.SameMeaning(v[0], w[0]) && Eip712.SameMeaning(v[1], w[1]);
    assert Eip712.SameMeaning(v[2], w[2]) && Eip712.SameMeaning(v[3], w[3]);
    SameNumber(s.maxTokenTTLSeconds, t.maxTokenTTLSeconds);
    SameList(s.allowedClaims, t.allowedClaims);
  }

  lemma PsaMessagesAgree(p: PSA, q: PSA)
    requires Eip712.SameType(PsaMessage(p), PsaMessage(q))
    requires Eip712.SameMeaning(PsaMessage(p), PsaMessage(q))
    requires SamePlace(p.registryChain, p.registry, q.registryChain, q.registry)
    ensures PsasAgree(p, q)
  {
    var v, w := PsaMessage(p).fields, PsaMessage(q).fields;
    assert Eip712.SameMeaning(v[0], w[0]) && Eip712.SameMeaning(v[1], w[1]) && Eip712.SameMeaning(v[2], w[2]);
    assert Eip712.SameMeaning(v[3], w[3]);
    assert Eip712.SameMeaning(v[4], w[4]) && Eip712.SameMeaning(v[5], w[5]) && Eip712.SameMeaning(v[6], w[6]);
    SameText(p.issuer, q.issuer);
    SameList(p.keyThumbprints, q.keyThumbprints);
    ScopesAgree(p.scope, q.scope);
    SameNumber(p.notBefore, q.notBefore);
    SameNumber(p.notAfter, q.notAfter);
    SameNumber(p.nonce, q.nonce);
  }

  lemma GrantMessagesAgree(g: AgentGrant, h: AgentGrant)
    requires Eip712.SameType(GrantMessage(g), GrantMessage(h))
    requires Eip712.SameMeaning(GrantMessage(g), GrantMessage(h))
    requires SamePlace(g.registryChain, g.registry, h.registryChain, h.registry)
    ensures GrantsAgree(g, h)
  {
    var v, w := GrantMessage(g).fields, GrantMessage(h).fields;
    assert Eip712.SameMeaning(v[0], w[0]) && Eip712.SameMeaning(v[1], w[1]) && Eip712.SameMeaning(v[2], w[2]);
    assert Eip712.SameMeaning(v[3], w[3]);
    assert Eip712.SameMeaning(v[4], w[4]) && Eip712.SameMeaning(v[5], w[5]) && Eip712.SameMeaning(v[6], w[6]);
    SameText(g.agentIdentifier, h.agentIdentifier);
    SameText(g.agentThumbprint, h.agentThumbprint);
    SameNumber(g.notBefore, h.notBefore);
    SameNumber(g.notAfter, h.notAfter);
    SameNumber(g.nonce, h.nonce);
  }

  lemma TermsMessagesAgree(t: Consent.Terms, u: Consent.Terms)
    requires Eip712.SameType(Consent.ApprovalMessage(t), Consent.ApprovalMessage(u))
    requires Eip712.SameMeaning(Consent.ApprovalMessage(t), Consent.ApprovalMessage(u))
    ensures TermsAgree(t, u)
  {
    var v, w := Consent.ApprovalMessage(t).fields, Consent.ApprovalMessage(u).fields;
    assert Eip712.SameMeaning(v[0], w[0]) && Eip712.SameMeaning(v[1], w[1]) && Eip712.SameMeaning(v[2], w[2]);
    assert Eip712.SameMeaning(v[3], w[3]) && Eip712.SameMeaning(v[4], w[4]);
    assert Eip712.SameMeaning(v[5], w[5]) && Eip712.SameMeaning(v[6], w[6]);
    SameText(t.id, u.id);
    SameText(t.agentID, u.agentID);
    SameText(t.resource, u.resource);
    SameList(t.scopeReq, u.scopeReq);
    SameNumber(Unix(t.expiresAt), Unix(u.expiresAt));
  }

  // ---------------------------------------------------------------- kinds and types

  ghost predicate SameKind(a: Document, b: Document) {
    a.PsaDoc? == b.PsaDoc? && a.GrantDoc? == b.GrantDoc?
  }

  lemma DomainType(chain: int, contract: string, chain': int, contract': string)
    ensures Eip712.SameType(Domain(chain, contract), Domain(chain', contract'))
  {
  }

  lemma PsaType(p: PSA, q: PSA)
    ensures Eip712.SameType(PsaMessage(p), PsaMessage(q))
  {
  }

  lemma GrantType(g: AgentGrant, h: AgentGrant)
    ensures Eip712.SameType(GrantMessage(g), GrantMessage(h))
  {
  }

  lemma ApprovalType(t: Consent.Terms, u: Consent.Terms)
    ensures Eip712.SameType(Consent.ApprovalMessage(t), Consent.ApprovalMessage(u))
  {
  }

  lemma MessageType(a: Document, b: Document)
    requires SameKind(a, b)
    ensures Eip712.SameType(MessageOf(a), MessageOf(b))
  {
    match a
    case PsaDoc(p) => PsaType(p, b.psa);
    case GrantDoc(g) => GrantType(g, b.grant);
    case ApprovalDoc(t, _, _) => ApprovalType(t, b.terms);
  }

  lemma KindsHaveDifferentTypes(a: Document, b: Document)
    requires MessageOf(a).typeText == MessageOf(b).typeText
    ensures SameKind(a, b)
  {
  }

  lemma EqualMeaningsAgree(a: Document, b: Document)
    requires SameKind(a, b)
    requires Eip712.SameType(DomainOf(a), DomainOf(b)) && Eip712.SameMeaning(DomainOf(a), DomainOf(b))
    requires Eip712.SameType(MessageOf(a), MessageOf(b)) && Eip712.SameMeaning(MessageOf(a), MessageOf(b))
    ensures Agree(a, b)
  {
    match a
    case PsaDoc(p) =>
      DomainsAgree(p.registryChain, p.registry, b.psa.registryChain, b.psa.registry);
      PsaMessagesAgree(p, b.psa);
    case GrantDoc(g) =>
      DomainsAgree(g.registryChain, g.registry, b.grant.registryChain, b.grant.registry);
      GrantMessagesAgree(g, b.grant);
    case ApprovalDoc(t, i, r) =>
      DomainsAgree(i, r, b.chainID, b.contract);
      TermsMessagesAgree(t, b.terms);
  }

  lemma SameDomainType(a: Document, b: Document)
    ensures Eip712.SameType(DomainOf(a), DomainOf(b))
  {
    forall chain, contract, chain', contract' {
      DomainType(chain, contract, chain', contract');
    }
  }

  /**
   * Digest binding and separation: documents with one digest are of one kind and agree on every covered
   * field, on the chain and on the registry, or two byte strings that their digests hash collide.
   */
  lemma DigestsBind(c: Primitives, a: Document, b: Document)
    requires Digest(c, a).Some? && Digest(c, a) == Digest(c, b)
    ensures Agree(a, b) || Collision(c.keccak256, Hashed(c, a), Hashed(c, b))
  {
    SameDomainType(a, b);
    if MessageOf(a).typeText == MessageOf(b).typeText {
      KindsHaveDifferentTypes(a, b);
      MessageType(a, b);
    }
    Eip712.DigestBinds(c, DomainOf(a), MessageOf(a), DomainOf(b), MessageOf(b));
    if !Collision(c.keccak256, Hashed(c, a), Hashed(c, b)) {
      EqualMeaningsAgree(a, b);
    }
  }
}
