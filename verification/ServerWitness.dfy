// Tokens that no one can use: enrolment takes a grant whose public key is not the one its thumbprint names, and the
// server then mints from it. Any such case leads there, and from the server's start one concrete run does.
module ServerWitness {
  import opened Attest
  import opened Basics
  import opened Consent
  import opened Crypto
  import Eip712
  import Handlers
  import Json
  import Revocation
  import opened Server
  import ServerGuarantees
  import opened ServerProgress
  import opened ServerRuns
  import Tenancy
  import opened Text
  import opened Tokens
  import Verification

  /** The key that the grant carries is not the one it names. */
  predicate Mismatched(c: Primitives, g: AgentGrant) {
    Thumbprint(c, JWK("OKP", "Ed25519", g.agentPubKey)) != g.agentThumbprint
  }

  /** The page of a grant's hash holds another grant with that hash. */
  ghost predicate GrantPageCollides(cfg: Config, web: Verification.Web, i: Issue) {
    var page := web.grant(Verification.GrantURL(i.claims.iss, i.claims.agS256));
    && page.Some? && page.value != i.grant
    && Collision(cfg.consent.c.sha256, {Json.Marshal(GrantJson(page.value))}, {Json.Marshal(GrantJson(i.grant))})
  }

  ghost predicate Refused(cfg: Config, web: Verification.Web, registry: Registry, i: Issue,
                          seen: Verification.Seen, p: Verification.Presentation)
  {
    p.raw == SignClaims(cfg.key, i.claims) ==>
      || Verification.Verify(Verification.WebVerifier(cfg.consent.c, cfg.codec, web, registry), seen, p).0.Err?
      || GrantPageCollides(cfg, web, i)
  }

  /** No presentation is accepted, to whatever resource, at any time, under any registry and whoever serves the pages. */
  ghost predicate NeverAccepted(cfg: Config, i: Issue) {
    forall web: Verification.Web, registry: Registry, seen: Verification.Seen, p: Verification.Presentation ::
      Refused(cfg, web, registry, i, seen, p)
  }

  lemma MismatchedIssueIsNeverAccepted(cfg: Config, s: System, k: nat)
    requires Inv(cfg, s) && Inverts(cfg.codec) && '#' !in cfg.issuerURL && k < |s.issued|
    requires Mismatched(cfg.consent.c, s.issued[k].grant)
    ensures NeverAccepted(cfg, s.issued[k])
  {
    var i := s.issued[k];
    ServerGuarantees.IssueAt(cfg, s, k);
    ServerGuarantees.VettedRootHasNoHash(cfg, i.psa);
    forall web: Verification.Web, registry: Registry, seen: Verification.Seen, p: Verification.Presentation
      ensures Refused(cfg, web, registry, i, seen, p)
    {
      if p.raw == SignClaims(cfg.key, i.claims) {
        ServerGuarantees.MismatchedKeyIsRefused(cfg, web, registry, i, seen, p);
      }
    }
  }

  /** The server hands out a token for this case that no one accepts. */
  ghost predicate MintsInVain(cfg: Config, s: System, k: Case) {
    exists actions ::
      && |Run(cfg, s, actions).issued| == |s.issued| + 1
      && Run(cfg, s, actions).issued[|s.issued|].grant == k.grant
      && NeverAccepted(cfg, Run(cfg, s, actions).issued[|s.issued|])
  }

  /**
   * From any state the server can be in between handlers: attestations that verify and a consented request within
   * them are answered with a token, even where the grant's key is not the one it names, and then no one accepts it.
   */
  lemma MismatchedGrantMintsInVain(cfg: Config, s: System, k: Case, draw: Draw, sig: Bytes)
    requires Inv(cfg, s) && Inverts(cfg.codec) && Handlers.Idle(s) && '#' !in cfg.issuerURL
    requires Attested(cfg, s, k) && AsksWithin(cfg, k) && Unused(s, draw)
    requires Consents(cfg, k.psa.root, TermsFor(cfg, s, k, draw), sig)
    requires Mismatched(cfg.consent.c, k.grant)
    ensures MintsInVain(cfg, s, k)
  {
    RequestWithinGetsItsToken(cfg, s, k, draw, sig);
    var t :| Leads(cfg, s, t) && Issues(cfg, s, t, k);
    var actions :| t == Run(cfg, s, actions);
    RunKeepsInv(cfg, s, actions);
    MismatchedIssueIsNeverAccepted(cfg, t, |s.issued|);
  }

  // ---------------------------------------------------------------- one such case

  function SignsAll(a: Option<Bytes20>): (Bytes32, Bytes) -> Option<Bytes20> {
    (digest, sig) => a
  }

  /** The same server in a world where every signature is by that address. */
  function Signing(cfg: Config, root: string): Config {
    cfg.(consent := cfg.consent.(c := cfg.consent.c.(recover := SignsAll(Eip712.AddressBytes(root)))))
  }

  function SomeSignature(): Bytes {
    seq(65, _ => 0)
  }

  const SOME_SCOPE := Scope(60, Nil, "", "")

  /** A PSA by the root for this server's key, in force in the first second. */
  function SomePsa(root: string, issuer: string, key: string): PSA {
    PSA(root, issuer, Of([key]), SOME_SCOPE, 0, 0, 1, root, 0, Of(SomeSignature()))
  }

  /** A grant by the root for key `thumb`, which carries `pub`. */
  function SomeGrant(root: string, mission: string, thumb: string, pub: string): AgentGrant {
    AgentGrant(root, "agent", thumb, pub, mission, 0, 0, 1, root, 1, Of(SomeSignature()))
  }

  const SOME_RESOURCE := ResourceClaims("https://resource.example", "", 0, 0, Nil, "")

  function SomeCase(cfg: Config, root: string, mission: string, thumb: string, pub: string): Case {
    Case(
      SomePsa(root, cfg.issuerURL, Thumbprint(cfg.consent.c, cfg.key.pub)), SomeGrant(root, mission, thumb, pub),
      "agent", thumb, Compact([], Json.Marshal(ResourceJson(SOME_RESOURCE)), []))
  }

  lemma {:induction false} AllEncode(c: Primitives, fields: seq<Eip712.Field>, ok: Eip712.Field -> bool)
    requires forall f :: f in fields ==> ok(f)
    requires forall f :: ok(f) ==> Eip712.Encode(c, f).Some?
    ensures Eip712.EncodeAll(c, fields).Some?
  {
    if fields != [] {
      assert ok(fields[0]);
      AllEncode(c, fields[1..], ok);
    }
  }

  /** A message with seven fields encodes if they do. */
  lemma SevenEncode(c: Primitives, message: Eip712.Field, p: Eip712.Field, q: Eip712.Field, r: Eip712.Field,
                    s: Eip712.Field, t: Eip712.Field, u: Eip712.Field, v: Eip712.Field, ok: Eip712.Field -> bool)
    requires message.Struct? && message.fields == [p, q, r, s, t, u, v]
    requires ok(p) && ok(q) && ok(r) && ok(s) && ok(t) && ok(u) && ok(v)
    requires forall f :: ok(f) ==> Eip712.Encode(c, f).Some?
    ensures Eip712.Encode(c, message).Some?
  {
    AllEncode(c, message.fields, ok);
  }

  lemma FourEncode(c: Primitives, message: Eip712.Field, p: Eip712.Field, q: Eip712.Field, r: Eip712.Field,
                   s: Eip712.Field, ok: Eip712.Field -> bool)
    requires message.Struct? && message.fields == [p, q, r, s]
    requires ok(p) && ok(q) && ok(r) && ok(s)
    requires forall f :: ok(f) ==> Eip712.Encode(c, f).Some?
    ensures Eip712.Encode(c, message).Some?
  {
    AllEncode(c, message.fields, ok);
  }

  lemma SmallNumberEncodes(c: Primitives, n: int)
    requires 0 <= n < 256
    ensures Eip712.Encode(c, Number(n)).Some?
  {
    Eip712.ShowIntIsDecimal(n);
    assert Pow256(Eip712.WORD_BYTES) == 256 * Pow256(Eip712.WORD_BYTES - 1);
  }

  lemma NoAmountEncodes(c: Primitives)
    ensures Eip712.Encode(c, AmountField("")).Some?
  {
    assert ShowInt(0) == "0";
    SmallNumberEncodes(c, 0);
  }

  function Encodes(c: Primitives): Eip712.Field -> bool {
    f => Eip712.Encode(c, f).Some?
  }

  lemma DomainEncodes(c: Primitives, chain: int, contract: string)
    requires 0 <= chain < 256 && Eip712.AddressBytes(contract).Some?
    ensures Eip712.Encode(c, Domain(chain, contract)).Some?
  {
    SmallNumberEncodes(c, chain);
    FourEncode(c, Domain(chain, contract), TextField(EIP712_NAME), TextField(EIP712_VERSION), Number(chain),
      Eip712.AddressField(contract), Encodes(c));
  }

  lemma ScopeEncodes(c: Primitives, s: Scope)
    requires 0 <= s.maxTokenTTLSeconds < 256 && s.paymentCapWei == s.stepUpAboveWei == ""
    ensures Eip712.Encode(c, ScopeMessage(s)).Some?
  {
    SmallNumberEncodes(c, s.maxTokenTTLSeconds);
    NoAmountEncodes(c);
    FourEncode(c, ScopeMessage(s), Number(s.maxTokenTTLSeconds), ListField(s.allowedClaims), AmountField(s.paymentCapWei),
      AmountField(s.stepUpAboveWei), Encodes(c));
  }

  lemma PsaEncodes(c: Primitives, p: PSA, scope: Eip712.Field)
    requires Eip712.AddressBytes(p.root).Some? && scope == ScopeMessage(p.scope) && Encodes(c)(scope)
    requires 0 <= p.notBefore < 256 && 0 <= p.notAfter < 256 && p.nonce < 256
    ensures Eip712.Encode(c, PsaMessage(p)).Some?
  {
    SmallNumberEncodes(c, p.notBefore);
    SmallNumberEncodes(c, p.notAfter);
    SmallNumberEncodes(c, p.nonce);
    LeavesEncode(c, p.root, p.issuer, p.keyThumbprints);
    SevenEncode(c, PsaMessage(p), Eip712.AddressField(p.root), TextField(p.issuer), ListField(p.keyThumbprints), scope,
      Number(p.notBefore), Number(p.notAfter), Number(p.nonce), Encodes(c));
  }

  lemma LeavesEncode(c: Primitives, root: string, text: string, list: Slice<string>)
    requires Eip712.AddressBytes(root).Some?
    ensures Encodes(c)(Eip712.AddressField(root)) && Encodes(c)(TextField(text)) && Encodes(c)(ListField(list))
    ensures forall f :: Encodes(c)(f) ==> Eip712.Encode(c, f).Some?
  {
  }

  lemma GrantEncodes(c: Primitives, g: AgentGrant)
    requires Eip712.AddressBytes(g.root).Some? && Eip712.HexWord(g.missionScopeS256).Some?
    requires 0 <= g.notBefore < 256 && 0 <= g.notAfter < 256 && g.nonce < 256
    ensures Eip712.Encode(c, GrantMessage(g)).Some?
  {
    SmallNumberEncodes(c, g.notBefore);
    SmallNumberEncodes(c, g.notAfter);
    SmallNumberEncodes(c, g.nonce);
    LeavesEncode(c, g.root, g.agentIdentifier, Nil);
    LeavesEncode(c, g.root, g.agentThumbprint, Nil);
    MissionEncodes(c, g.missionScopeS256);
    SevenEncode(c, GrantMessage(g), Eip712.AddressField(g.root), TextField(g.agentIdentifier), TextField(g.agentThumbprint),
      Eip712.HexField(g.missionScopeS256), Number(g.notBefore), Number(g.notAfter), Number(g.nonce), Encodes(c));
  }

  lemma MissionEncodes(c: Primitives, mission: string)
    requires Eip712.HexWord(mission).Some?
    ensures Encodes(c)(Eip712.HexField(mission))
  {
  }

  lemma DigestExists(c: Primitives, domain: Eip712.Field, message: Eip712.Field)
    requires Eip712.Encode(c, domain).Some? && Eip712.Encode(c, message).Some?
    ensures Eip712.Digest(c, domain, message).Some?
  {
  }

  lemma PsaHasDigest(c: Primitives, p: PSA)
    requires 0 <= p.registryChain < 256 && Eip712.AddressBytes(p.registry).Some?
    requires Eip712.AddressBytes(p.root).Some? && 0 <= p.notBefore < 256 && 0 <= p.notAfter < 256 && p.nonce < 256
    requires 0 <= p.scope.maxTokenTTLSeconds < 256 && p.scope.paymentCapWei == p.scope.stepUpAboveWei == ""
    ensures PsaDigest(c, p).Some?
  {
    DomainEncodes(c, p.registryChain, p.registry);
    ScopeEncodes(c, p.scope);
    PsaEncodes(c, p, ScopeMessage(p.scope));
    DigestExists(c, Domain(p.registryChain, p.registry), PsaMessage(p));
  }

  lemma GrantHasDigest(c: Primitives, g: AgentGrant)
    requires 0 <= g.registryChain < 256 && Eip712.AddressBytes(g.registry).Some?
    requires Eip712.AddressBytes(g.root).Some? && 0 <= g.notBefore < 256 && 0 <= g.notAfter < 256 && g.nonce < 256
    requires Eip712.HexWord(g.missionScopeS256).Some?
    ensures AgentGrantDigest(c, g).Some?
  {
    DomainEncodes(c, g.registryChain, g.registry);
    GrantEncodes(c, g);
    DigestExists(c, Domain(g.registryChain, g.registry), GrantMessage(g));
  }

  lemma SomePsaIsAdmitted(cfg: Config, root: string)
    requires Eip712.AddressBytes(root).Some? && cfg.consent.c.recover == SignsAll(Eip712.AddressBytes(root))
    ensures Tenancy.OnboardCheck(cfg.consent.c, Revocation.View({}), 0,
              SomePsa(root, cfg.issuerURL, Thumbprint(cfg.consent.c, cfg.key.pub)), cfg.issuerURL, KeyThumbs(cfg)).None?
  {
    var key := Thumbprint(cfg.consent.c, cfg.key.pub);
    var psa := SomePsa(root, cfg.issuerURL, key);
    PsaHasDigest(cfg.consent.c, psa);
    assert psa.keyThumbprints.Items() == [key];
    assert KeyThumbs(cfg)[0] == key && key != "";
    assert Tenancy.CoveredKey(psa, KeyThumbs(cfg)) == key;
    VerifyPSAExactly(cfg.consent.c, Revocation.View({}), 0, psa, cfg.issuerURL, key);
  }

  lemma SomeGrantVerifies(c: Primitives, root: string, mission: string, thumb: string, pub: string)
    requires Eip712.AddressBytes(root).Some? && Eip712.HexWord(mission).Some?
    requires c.recover == SignsAll(Eip712.AddressBytes(root))
    ensures VerifyAgentGrant(c, Revocation.View({}), 0, SomeGrant(root, mission, thumb, pub), root, "agent", thumb).None?
  {
    GrantHasDigest(c, SomeGrant(root, mission, thumb, pub));
    VerifyAgentGrantExactly(c, Revocation.View({}), 0, SomeGrant(root, mission, thumb, pub), root, "agent", thumb);
  }

  lemma SomeCaseIsAttested(cfg: Config, root: string, mission: string, thumb: string, pub: string)
    requires Eip712.AddressBytes(root).Some? && Eip712.HexWord(mission).Some?
    requires cfg.consent.c.recover == SignsAll(Eip712.AddressBytes(root))
    ensures Attested(cfg, Boot(0), SomeCase(cfg, root, mission, thumb, pub))
  {
    SomePsaIsAdmitted(cfg, root);
    SomeGrantVerifies(cfg.consent.c, root, mission, thumb, pub);
    assert SomeCase(cfg, root, mission, thumb, pub).psa.keyThumbprints.Items()[0] == Thumbprint(cfg.consent.c, cfg.key.pub);
  }

  lemma SomeCaseAsksWithin(cfg: Config, root: string, mission: string, thumb: string, pub: string)
    requires Inverts(cfg.codec) && Eip712.HexWord(mission).Some?
    ensures var k := SomeCase(cfg, root, mission, thumb, pub);
      AsksWithin(cfg, k) && TierOf(cfg, k) == Routine
  {
    var b := Json.Marshal(ResourceJson(SOME_RESOURCE));
    CompactRoundTrip([], b, []);
    assert cfg.codec.resource(b) == Some(SOME_RESOURCE);
    assert ParseResourceToken(cfg, Compact([], b, [])) == Some(SOME_RESOURCE);
  }

  /**
   * The concrete run: whatever else a server is configured with, and from its very start, it mints in vain for a root
   * that signs a grant which names one key and carries another.
   */
  lemma SomeTokenIsNeverAccepted(before: Config, root: string, mission: string, thumb: string, pub: string)
    requires Inverts(before.codec) && '#' !in before.issuerURL
    requires Eip712.AddressBytes(root).Some? && Eip712.HexWord(mission).Some?
    requires Thumbprint(before.consent.c, JWK("OKP", "Ed25519", pub)) != thumb
    ensures var cfg := Signing(before, root);
      MintsInVain(cfg, Boot(0), SomeCase(cfg, root, mission, thumb, pub))
  {
    var cfg := Signing(before, root);
    BootHoldsInv(cfg, 0);
    SomeCaseIsAttested(cfg, root, mission, thumb, pub);
    SomeCaseAsksWithin(cfg, root, mission, thumb, pub);
    MismatchedGrantMintsInVain(cfg, Boot(0), SomeCase(cfg, root, mission, thumb, pub), Draw("id", "code", "jti"), []);
  }
}
