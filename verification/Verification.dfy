// internal/tokens, resource side, with the resolvers and the replay cache of cmd/resd: the two-layer check of a
// presented token, what its acceptance means, and that every token this server mints is accepted.
module Verification {
  import opened Attest
  import opened Base64
  import opened Basics
  import opened Crypto
  import Documents
  import Eip712
  import Json
  import opened Text
  import opened Tokens

  /** What a verifier is wired to: key and attestation resolvers, and the revocation registry. */
  datatype Verifier = Verifier(
    c: Primitives,
    codec: Codec,
    keyOf: (string, string) -> Option<JWK>,
    psaOf: string -> Option<PSA>,
    grantOf: (string, string) -> Option<AgentGrant>,
    registry: Registry
  )

  /** One presentation: the token, the resource it is shown to, the key that signed the request, the clock readings. */
  datatype Presentation = Presentation(
    raw: string,
    aud: string,
    requestThumb: string,
    now: int,
    nowPsa: int,
    nowGrant: int
  )

  datatype Error =
    | Malformed
    | BadSegment
    | UnacceptableHeader
    | UnknownKey
    | BadIssuerKey
    | BadSignature
    | WrongAudience
    | ExpiredOrOverlong
    | NotPresentedByAgent
    | Replayed
    | Unresolved
    | PsaRefused(refusal: Refusal)
    | SubIsNotRoot
    | GrantRefused(refusal: Refusal)

  // ---------------------------------------------------------------- Layer 1

  function ReadSegment<T>(seg: string, read: Bytes -> Option<T>): Option<T> {
    var b :- Decode(UrlSafe, seg);
    read(b)
  }

  /** The Ed25519 public key of a JWK: 32 bytes behind unpadded base64url. */
  function PublicKey(k: JWK): Option<Bytes> {
    var b :- Decode(UrlSafe, k.x);
    if |b| == 32 then Some(b) else None
  }

  predicate SignatureValid(c: Primitives, pub: Bytes, header: string, claims: string, sig: string) {
    var s := Decode(UrlSafe, sig);
    s.Some? && c.ed25519Verify(pub, SigningInput(header, claims), s.value)
  }

  function ParseAndCheckSig(v: Verifier, raw: string, wantTyp: string): Result<(Header, AuthClaims), Error> {
    match Split3(raw)
    case None => Err(Malformed)
    case Some((h, b, s)) => (
      match ReadSegment(h, v.codec.header)
      case None => Err(BadSegment)
      case Some(header) =>
        if header.alg != "EdDSA" || header.typ != wantTyp then Err(UnacceptableHeader)
        else
          match ReadSegment(b, v.codec.claims)
          case None => Err(BadSegment)
          case Some(claims) => (
            match v.keyOf(claims.iss, header.kid)
            case None => Err(UnknownKey)
            case Some(jwk) => (
              match PublicKey(jwk)
              case None => Err(BadIssuerKey)
              case Some(pub) =>
                if SignatureValid(v.c, pub, h, b, s) then Ok((header, claims)) else Err(BadSignature))))
  }

  const DAY: int := 24 * 3600

  /** Every Layer 1 check that keeps no state. */
  function Layer1Check(v: Verifier, p: Presentation): Result<(Header, AuthClaims), Error> {
    match ParseAndCheckSig(v, p.raw, "auth+jwt")
    case Err(e) => Err(e)
    case Ok((header, claims)) =>
      if claims.aud != p.aud then Err(WrongAudience)
      else if Unix(p.now) >= claims.exp || claims.exp - claims.iat > DAY then Err(ExpiredOrOverlong)
      else if Thumbprint(v.c, claims.cnf) != p.requestThumb then Err(NotPresentedByAgent)
      else Ok((header, claims))
  }

  type Seen = map<string, int>

  /** Layer 1: the stateless checks, and last of all the jti, which only a passing token spends. */
  function Layer1(v: Verifier, seen: Seen, p: Presentation): (Result<(Header, AuthClaims), Error>, Seen) {
    match Layer1Check(v, p)
    case Err(e) => (Err(e), seen)
    case Ok((header, claims)) =>
      if claims.jti in seen then (Err(Replayed), seen)
      else (Ok((header, claims)), seen[claims.jti := claims.exp])
  }

  // ---------------------------------------------------------------- Layer 2

  function Layer2(v: Verifier, p: Presentation, header: Header, claims: AuthClaims): Option<Error> {
    match v.psaOf(claims.psa)
    case None => Some(Unresolved)
    case Some(psa) => (
      match v.keyOf(claims.iss, header.kid)
      case None => Some(Unresolved)
      case Some(jwk) => (
        match VerifyPSA(v.c, v.registry, p.nowPsa, psa, claims.iss, Thumbprint(v.c, jwk))
        case Some(refusal) => Some(PsaRefused(refusal))
        case None =>
          if !EqualFold(Sub(psa.registryChain, psa.root), claims.sub) then Some(SubIsNotRoot)
          else
            match v.grantOf(claims.iss, claims.agS256)
            case None => Some(Unresolved)
            case Some(grant) => (
              match VerifyAgentGrant(v.c, v.registry, p.nowGrant, grant, psa.root, claims.agent, Thumbprint(v.c, claims.cnf))
              case Some(refusal) => Some(GrantRefused(refusal))
              case None => None)))
  }

  function Verify(v: Verifier, seen: Seen, p: Presentation): (Result<AuthClaims, Error>, Seen) {
    match Layer1(v, seen, p)
    case (Err(e), after) => (Err(e), after)
    case (Ok((header, claims)), after) =>
      if claims.psa == "" then (Ok(claims), after)
      else
        match Layer2(v, p, header, claims)
        case Some(e) => (Err(e), after)
        case None => (Ok(claims), after)
  }

  function VerifyVanilla(v: Verifier, seen: Seen, p: Presentation): (Result<AuthClaims, Error>, Seen) {
    match Layer1(v, seen, p)
    case (Err(e), after) => (Err(e), after)
    case (Ok((header, claims)), after) => (Ok(claims), after)
  }

  // ---------------------------------------------------------------- what acceptance means

  /** The token is signed by this key of its issuer, as a whole, and the claims are those it holds. */
  ghost predicate IssuerSigned(v: Verifier, raw: string, header: Header, claims: AuthClaims, jwk: JWK) {
    && Split3(raw).Some?
    && var (h, b, _) := Split3(raw).value;
      && ReadSegment(h, v.codec.header) == Some(header) && header.alg == "EdDSA" && header.typ == "auth+jwt"
      && ReadSegment(b, v.codec.claims) == Some(claims)
      && v.keyOf(claims.iss, header.kid) == Some(jwk)
      && KeySigned(v.c, jwk, raw)
  }

  /** The published key is 32 bytes, and the last segment is its signature over all that stands before the last dot. */
  ghost predicate KeySigned(c: Primitives, jwk: JWK, raw: string) {
    var pub := Decode(UrlSafe, jwk.x);
    pub.Some? && |pub.value| == 32 && SignatureCovers(c, pub.value, raw)
  }

  lemma SignatureValidExactly(c: Primitives, pub: Bytes, raw: string, h: string, b: string, s: string)
    requires Split3(raw) == Some((h, b, s))
    ensures SignatureValid(c, pub, h, b, s) <==> SignatureCovers(c, pub, raw)
  {
    Split3Exactly(raw, h, b, s);
    LastDotOf(h, b, s);
    var n := |h| + 1 + |b|;
    assert raw[..n] == h + "." + b && raw[n + 1..] == s;
    CoversAtLastDot(c, pub, raw, n);
  }

  ghost predicate PresentedRight(v: Verifier, p: Presentation, claims: AuthClaims) {
    && claims.aud == p.aud
    && Unix(p.now) < claims.exp <= claims.iat + 86_400
    && Thumbprint(v.c, claims.cnf) == p.requestThumb
  }

  /** The chain from the root to the key that signed the request. */
  ghost predicate ChainHolds(v: Verifier, p: Presentation, claims: AuthClaims, jwk: JWK, psa: PSA, grant: AgentGrant) {
    && v.psaOf(claims.psa) == Some(psa) && v.grantOf(claims.iss, claims.agS256) == Some(grant)
    && PsaHolds(v.c, v.registry, p.nowPsa, psa, claims.iss, Thumbprint(v.c, jwk))
    && NamesRoot(claims.sub, psa.registryChain, psa.root)
    && GrantHolds(v.c, v.registry, p.nowGrant, grant, psa.root, claims.agent, p.requestThumb)
  }

  /** What parsing accepts is signed as a whole. */
  lemma ParsedExactly(v: Verifier, raw: string, header: Header, claims: AuthClaims)
    ensures ParseAndCheckSig(v, raw, "auth+jwt") == Ok((header, claims)) <==>
      exists jwk :: IssuerSigned(v, raw, header, claims, jwk)
  {
    if Split3(raw).Some? {
      var (h, b, s) := Split3(raw).value;
      var jwk := v.keyOf(claims.iss, header.kid);
      if jwk.Some? && PublicKey(jwk.value).Some? {
        SignatureValidExactly(v.c, PublicKey(jwk.value).value, raw, h, b, s);
      }
      if ParseAndCheckSig(v, raw, "auth+jwt") == Ok((header, claims)) {
        assert IssuerSigned(v, raw, header, claims, jwk.value);
      }
    }
  }

  lemma Layer1Exactly(v: Verifier, p: Presentation, header: Header, claims: AuthClaims)
    ensures Layer1Check(v, p) == Ok((header, claims)) <==>
      PresentedRight(v, p, claims) && exists jwk :: IssuerSigned(v, p.raw, header, claims, jwk)
  {
    ParsedExactly(v, p.raw, header, claims);
  }

  lemma Layer1Claims(v: Verifier, p: Presentation, claims: AuthClaims)
    ensures Layer1Check(v, p).Ok? && Layer1Check(v, p).value.1 == claims <==>
      PresentedRight(v, p, claims) && exists header, jwk :: IssuerSigned(v, p.raw, header, claims, jwk)
  {
    if Layer1Check(v, p).Ok? && Layer1Check(v, p).value.1 == claims {
      Layer1Exactly(v, p, Layer1Check(v, p).value.0, claims);
    }
    if PresentedRight(v, p, claims) && exists header, jwk :: IssuerSigned(v, p.raw, header, claims, jwk) {
      var header, jwk :| IssuerSigned(v, p.raw, header, claims, jwk);
      Layer1Exactly(v, p, header, claims);
    }
  }

  lemma Layer2OfChain(v: Verifier, p: Presentation, header: Header, claims: AuthClaims, jwk: JWK,
                      psa: PSA, grant: AgentGrant)
    requires v.keyOf(claims.iss, header.kid) == Some(jwk) && Thumbprint(v.c, claims.cnf) == p.requestThumb
    requires v.psaOf(claims.psa) == Some(psa) && v.grantOf(claims.iss, claims.agS256) == Some(grant)
    ensures Layer2(v, p, header, claims).None? <==> ChainHolds(v, p, claims, jwk, psa, grant)
  {
    VerifyPSAExactly(v.c, v.registry, p.nowPsa, psa, claims.iss, Thumbprint(v.c, jwk));
    VerifyAgentGrantExactly(v.c, v.registry, p.nowGrant, grant, psa.root, claims.agent, p.requestThumb);
    SubExactly(claims.sub, psa.registryChain, psa.root);
  }

  lemma Layer2Exactly(v: Verifier, p: Presentation, header: Header, claims: AuthClaims, jwk: JWK)
    requires v.keyOf(claims.iss, header.kid) == Some(jwk) && PresentedRight(v, p, claims)
    ensures Layer2(v, p, header, claims).None? <==> exists psa, grant :: ChainHolds(v, p, claims, jwk, psa, grant)
  {
    var psa, grant := v.psaOf(claims.psa), v.grantOf(claims.iss, claims.agS256);
    if psa.Some? && grant.Some? {
      Layer2OfChain(v, p, header, claims, jwk, psa.value, grant.value);
    }
  }

  /** Exactly which presentations Verify accepts, and with which claims. */
  lemma VerifyExactly(v: Verifier, seen: Seen, p: Presentation, claims: AuthClaims)
    ensures Verify(v, seen, p).0 == Ok(claims) <==>
      && PresentedRight(v, p, claims) && claims.jti !in seen
      && exists header, jwk :: IssuerSigned(v, p.raw, header, claims, jwk)
          && (claims.psa == "" || exists psa, grant :: ChainHolds(v, p, claims, jwk, psa, grant))
  {
    Layer1Claims(v, p, claims);
    if Layer1Check(v, p).Ok? && Layer1Check(v, p).value.1 == claims {
      var header := Layer1Check(v, p).value.0;
      Layer1Exactly(v, p, header, claims);
      var jwk :| IssuerSigned(v, p.raw, header, claims, jwk);
      Layer2Exactly(v, p, header, claims, jwk);
      forall other, key | IssuerSigned(v, p.raw, other, claims, key)
        ensures other == header && key == jwk
      {
      }
    }
  }

  /** Exactly which presentations a resource without the key-rooting requirement accepts. */
  lemma VanillaExactly(v: Verifier, seen: Seen, p: Presentation, claims: AuthClaims)
    ensures VerifyVanilla(v, seen, p).0 == Ok(claims) <==>
      && PresentedRight(v, p, claims) && claims.jti !in seen
      && exists header, jwk :: IssuerSigned(v, p.raw, header, claims, jwk)
    ensures var (accepted, after) := VerifyVanilla(v, seen, p);
      after == if accepted.Ok? then seen[accepted.value.jti := accepted.value.exp] else seen
  {
    Layer1Claims(v, p, claims);
  }

  // ---------------------------------------------------------------- soundness

  /** Documents by the account that signed them. */
  type SignedDocuments = set<(Bytes20, Documents.Document)>

  /** Unforgeability, as a hypothesis about one signature: its account signed a document with that digest. */
  ghost predicate Authentic(c: Primitives, signed: SignedDocuments, digest: Option<Bytes32>, sig: Bytes) {
    digest.Some? && SignerOf(c, digest.value, sig).Some? ==>
      exists doc :: (SignerOf(c, digest.value, sig).value, doc) in signed && Documents.Digest(c, doc) == digest
  }

  /** The account that the root's text names signed a document saying the same as d, or hashed inputs collide. */
  ghost predicate SignedTheLike(c: Primitives, signed: SignedDocuments, root: string, d: Documents.Document) {
    && Eip712.AddressBytes(root).Some?
    && exists doc :: (Eip712.AddressBytes(root).value, doc) in signed &&
         (Documents.Agree(doc, d) || Collision(c.keccak256, Documents.Hashed(c, doc), Documents.Hashed(c, d)))
  }

  lemma AuthenticDocument(c: Primitives, signed: SignedDocuments, root: string, d: Documents.Document, sig: Bytes)
    requires Documents.Digest(c, d).Some? && SignedAs(c, root, Documents.Digest(c, d).value, sig)
    requires Authentic(c, signed, Documents.Digest(c, d), sig)
    ensures SignedTheLike(c, signed, root, d)
  {
    var a := Eip712.AddressBytes(root).value;
    var doc :| (a, doc) in signed && Documents.Digest(c, doc) == Documents.Digest(c, d);
    Documents.DigestsBind(c, doc, d);
  }

  /** The documents and the key that an accepted token was checked against. */
  lemma AcceptedChain(v: Verifier, seen: Seen, p: Presentation)
    returns (header: Header, jwk: JWK, psa: PSA, grant: AgentGrant)
    requires Verify(v, seen, p).0.Ok? && Verify(v, seen, p).0.value.psa != ""
    ensures var claims := Verify(v, seen, p).0.value;
      && IssuerSigned(v, p.raw, header, claims, jwk) && PresentedRight(v, p, claims)
      && ChainHolds(v, p, claims, jwk, psa, grant)
  {
    var claims := Verify(v, seen, p).0.value;
    VerifyExactly(v, seen, p, claims);
    header, jwk :| IssuerSigned(v, p.raw, header, claims, jwk) && exists q, g :: ChainHolds(v, p, claims, jwk, q, g);
    psa, grant :| ChainHolds(v, p, claims, jwk, psa, grant);
  }

  lemma ChainIsSigned(v: Verifier, p: Presentation, claims: AuthClaims, jwk: JWK, psa: PSA, grant: AgentGrant,
                      signed: SignedDocuments)
    requires ChainHolds(v, p, claims, jwk, psa, grant)
    requires Authentic(v.c, signed, PsaDigest(v.c, psa), psa.signature.Items())
    requires Authentic(v.c, signed, AgentGrantDigest(v.c, grant), grant.signature.Items())
    ensures SignedTheLike(v.c, signed, psa.root, Documents.PsaDoc(psa))
    ensures SignedTheLike(v.c, signed, psa.root, Documents.GrantDoc(grant))
  {
    AuthenticDocument(v.c, signed, psa.root, Documents.PsaDoc(psa), psa.signature.Items());
    AuthenticDocument(v.c, signed, grant.root, Documents.GrantDoc(grant), grant.signature.Items());
  }

  /**
   * No fabrication (I1): if a token that names a PSA is accepted, then the root in its `sub` signed a PSA for
   * the token's issuer covering the key that signed the token, and a grant for the token's agent and the key
   * that signed the request, both in their windows and unrevoked at the time of the check. Where quoted texts can be
   * told apart, the key in `cnf` is the granted key itself and the signing key the covered one, or their texts collide.
   */
  lemma AcceptedTokenIsRooted(v: Verifier, seen: Seen, p: Presentation, signed: SignedDocuments)
    returns (psa: PSA, grant: AgentGrant, jwk: JWK)
    requires Verify(v, seen, p).0.Ok? && Verify(v, seen, p).0.value.psa != ""
    requires var claims := Verify(v, seen, p).0.value;
      && (forall q :: v.psaOf(claims.psa) == Some(q) ==>
            Authentic(v.c, signed, PsaDigest(v.c, q), q.signature.Items()))
      && (forall g :: v.grantOf(claims.iss, claims.agS256) == Some(g) ==>
            Authentic(v.c, signed, AgentGrantDigest(v.c, g), g.signature.Items()))
    ensures var claims := Verify(v, seen, p).0.value;
      && (exists header :: IssuerSigned(v, p.raw, header, claims, jwk))
      && PresentedRight(v, p, claims)
      && NamesRoot(claims.sub, psa.registryChain, psa.root)
      && SignedTheLike(v.c, signed, psa.root, Documents.PsaDoc(psa))
      && psa.issuer == claims.iss && Thumbprint(v.c, jwk) in psa.keyThumbprints.Items()
      && psa.notBefore <= Unix(p.nowPsa) <= psa.notAfter
      && v.registry(psa.registryChain, psa.registry, psa.root, psa.nonce) == Some(false)
      && SignedTheLike(v.c, signed, psa.root, Documents.GrantDoc(grant))
      && grant.root == psa.root
      && grant.agentIdentifier == claims.agent && grant.agentThumbprint == p.requestThumb
      && grant.notBefore <= Unix(p.nowGrant) <= grant.notAfter
      && v.registry(grant.registryChain, grant.registry, grant.root, grant.nonce) == Some(false)
      && (Readable(v.c.quote) ==> OnlyKey(v.c, claims.cnf, grant.agentThumbprint))
      && (Readable(v.c.quote) ==> OnlyKey(v.c, jwk, Thumbprint(v.c, jwk)))
  {
    var header;
    header, jwk, psa, grant := AcceptedChain(v, seen, p);
    if Readable(v.c.quote) {
      ThumbprintNamesKey(v.c, Verify(v, seen, p).0.value.cnf);
      ThumbprintNamesKey(v.c, jwk);
    }
    ChainIsSigned(v, p, Verify(v, seen, p).0.value, jwk, psa, grant, signed);
  }

  /** The key that the request was signed with is the one in `cnf`, where quoted texts can be told apart, or collides. */
  lemma AcceptedHolder(v: Verifier, seen: Seen, p: Presentation)
    requires Verify(v, seen, p).0.Ok? && Readable(v.c.quote)
    ensures OnlyKey(v.c, Verify(v, seen, p).0.value.cnf, p.requestThumb)
  {
    VerifyExactly(v, seen, p, Verify(v, seen, p).0.value);
    ThumbprintNamesKey(v.c, Verify(v, seen, p).0.value.cnf);
  }

  /** What an issuer's key signed: headers with claims. */
  type SignedTokens = set<(Header, AuthClaims)>

  function TokenText(header: Header, claims: AuthClaims): string {
    Seg(Json.Marshal(HeaderJson(header))) + "." + Seg(Json.Marshal(ClaimsJson(claims)))
  }

  /** Unforgeability, as a hypothesis about this one token: if its signature verifies, the key signed that very text. */
  ghost predicate Unforged(c: Primitives, jwk: JWK, raw: string, tokens: SignedTokens) {
    KeySigned(c, jwk, raw) ==>
      exists n: nat, header, claims ::
        LastDot(raw, n) && (header, claims) in tokens && Utf8(raw[..n]) == Utf8(TokenText(header, claims))
  }

  lemma PartsOfText(raw: string, n: nat, h: string, b: string, s: string, header: Bytes, claims: Bytes)
    requires Split3(raw) == Some((h, b, s)) && LastDot(raw, n)
    requires Utf8(raw[..n]) == Utf8(Seg(header) + "." + Seg(claims))
    ensures h == Seg(header) && b == Seg(claims)
  {
    Split3Exactly(raw, h, b, s);
    LastDotOf(h, b, s);
    LastDotIsOne(raw, n, |h| + 1 + |b|);
    NoDotInSegment(header);
    NoDotInSegment(claims);
    SigningInputPins(h, b, Seg(header), Seg(claims));
  }

  lemma SegmentsRead(codec: Codec, header: Header, claims: AuthClaims)
    requires Inverts(codec)
    ensures ReadSegment(Seg(Json.Marshal(HeaderJson(header))), codec.header) == Some(header)
    ensures ReadSegment(Seg(Json.Marshal(ClaimsJson(claims))), codec.claims) == Some(claims)
  {
    RoundTrip(UrlSafe, Json.Marshal(HeaderJson(header)));
    RoundTrip(UrlSafe, Json.Marshal(ClaimsJson(claims)));
  }

  lemma TextIsRead(v: Verifier, raw: string, n: nat, header: Header, claims: AuthClaims, h: string, b: string, s: string)
    requires Inverts(v.codec) && Split3(raw) == Some((h, b, s)) && LastDot(raw, n)
    requires Utf8(raw[..n]) == Utf8(TokenText(header, claims))
    ensures ReadSegment(h, v.codec.header) == Some(header) && ReadSegment(b, v.codec.claims) == Some(claims)
  {
    PartsOfText(raw, n, h, b, s, Json.Marshal(HeaderJson(header)), Json.Marshal(ClaimsJson(claims)));
    SegmentsRead(v.codec, header, claims);
  }

  lemma SignedIsAmong(v: Verifier, raw: string, header: Header, claims: AuthClaims, jwk: JWK, tokens: SignedTokens)
    requires Inverts(v.codec) && IssuerSigned(v, raw, header, claims, jwk) && Unforged(v.c, jwk, raw, tokens)
    ensures (header, claims) in tokens
  {
    var (h, b, s) := Split3(raw).value;
    var n: nat, header', claims' :|
      LastDot(raw, n) && (header', claims') in tokens && Utf8(raw[..n]) == Utf8(TokenText(header', claims'));
    TextIsRead(v, raw, n, header', claims', h, b, s);
  }

  /**
   * No alteration: if the key that the issuer publishes signed certain tokens, and its signature on what is presented
   * was not forged, then what is accepted has exactly the header and the claims of one of those.
   */
  lemma AcceptedTokenWasSigned(v: Verifier, seen: Seen, p: Presentation, tokens: SignedTokens)
    returns (header: Header)
    requires Inverts(v.codec) && Verify(v, seen, p).0.Ok?
    requires forall kid, jwk :: v.keyOf(Verify(v, seen, p).0.value.iss, kid) == Some(jwk) ==>
               Unforged(v.c, jwk, p.raw, tokens)
    ensures (header, Verify(v, seen, p).0.value) in tokens && header.typ == "auth+jwt"
  {
    var claims := Verify(v, seen, p).0.value;
    VerifyExactly(v, seen, p, claims);
    var jwk;
    header, jwk :| IssuerSigned(v, p.raw, header, claims, jwk);
    SignedIsAmong(v, p.raw, header, claims, jwk, tokens);
  }

  // ---------------------------------------------------------------- resolvers

  /** What the person server serves: its key list, PSAs and grants, by URL. */
  datatype Web = Web(
    jwks: string -> Option<seq<JWK>>,
    psa: string -> Option<PSA>,
    grant: string -> Option<AgentGrant>
  )

  function TrimRightSlashes(s: string): string {
    if s != "" && s[|s| - 1] == '/' then TrimRightSlashes(s[..|s| - 1]) else s
  }

  /** The URL without the slashes that it ends in. */
  ghost predicate IsBase(url: string, base: string) {
    && base <= url && (forall i :: |base| <= i < |url| ==> url[i] == '/')
    && (base != "" ==> base[|base| - 1] != '/')
  }

  lemma {:induction false} TrimIsBase(url: string)
    ensures IsBase(url, TrimRightSlashes(url))
  {
    if url != "" && url[|url| - 1] == '/' {
      TrimIsBase(url[..|url| - 1]);
    }
  }

  /** The first key of the issuer's list; the key id is not looked at. */
  function FetchKey(web: Web, iss: string): Option<JWK> {
    var keys :- web.jwks(TrimRightSlashes(iss) + "/jwks.json");
    if keys == [] then None else Some(keys[0])
  }

  /** The PSA behind a reference, if it has the pinned content hash. */
  function FetchPSA(c: Primitives, web: Web, ref: string): Option<PSA> {
    var (url, want) := SplitRef(ref);
    var psa :- web.psa(url);
    if want != "" && PsaHash(c, psa) != want then None else Some(psa)
  }

  function GrantURL(iss: string, agS256: string): string {
    TrimRightSlashes(iss) + "/grants/" + agS256
  }

  function FetchGrant(c: Primitives, web: Web, iss: string, agS256: string): Option<AgentGrant> {
    var g :- web.grant(GrantURL(iss, agS256));
    if GrantHash(c, g) != agS256 then None else Some(g)
  }

  function WebVerifier(c: Primitives, codec: Codec, web: Web, registry: Registry): Verifier {
    Verifier(c, codec,
      (iss: string, kid: string) => FetchKey(web, iss),
      (ref: string) => FetchPSA(c, web, ref),
      (iss: string, agS256: string) => FetchGrant(c, web, iss, agS256),
      registry)
  }

  /** What the web serves instead of a pinned PSA is that PSA, or collides with it under SHA-256. */
  lemma FetchedPsaIsPinned(c: Primitives, web: Web, url: string, psa: PSA)
    requires '#' !in url && FetchPSA(c, web, Ref(url, PsaHash(c, psa))).Some?
    ensures var got := FetchPSA(c, web, Ref(url, PsaHash(c, psa))).value;
      got == psa || Collision(c.sha256, {Json.Marshal(PsaJson(got))}, {Json.Marshal(PsaJson(psa))})
  {
    SplitRefInvertsRef(url, PsaHash(c, psa));
    assert PsaHash(c, psa) != "";
    PsaHashPins(c, FetchPSA(c, web, Ref(url, PsaHash(c, psa))).value, psa);
  }

  // ---------------------------------------------------------------- completeness

  /** An Ed25519 issuer key whose public half is published in the form minting assumes. */
  ghost predicate WorkingKey(c: Primitives, key: IssuerKey) {
    && PublicKey(key.pub).Some?
    && forall m :: c.ed25519Verify(PublicKey(key.pub).value, m, key.sign(m))
  }

  lemma WorkingKeySigns(c: Primitives, key: IssuerKey, header: Bytes, claims: Bytes)
    requires WorkingKey(c, key)
    ensures KeySigned(c, key.pub, Compact(header, claims, key.sign(SigningInput(Seg(header), Seg(claims)))))
  {
    SignedPairIsWhole(key, header, claims);
    RoundTrip(UrlSafe, key.sign(Utf8(Seg(header) + "." + Seg(claims))));
  }

  lemma MintedTokenParses(v: Verifier, key: IssuerKey, claims: AuthClaims)
    requires Inverts(v.codec) && WorkingKey(v.c, key)
    requires v.keyOf(claims.iss, key.kid) == Some(key.pub)
    ensures IssuerSigned(v, SignClaims(key, claims), Header("EdDSA", "auth+jwt", key.kid), claims, key.pub)
  {
    var header := Header("EdDSA", "auth+jwt", key.kid);
    var h, b := Json.Marshal(HeaderJson(header)), Json.Marshal(ClaimsJson(claims));
    CompactRoundTrip(h, b, key.sign(SigningInput(Seg(h), Seg(b))));
    SegmentsRead(v.codec, header, claims);
    WorkingKeySigns(v.c, key, h, b);
  }

  lemma ParsedClaims(v: Verifier, raw: string, wantTyp: string, h: string, b: string, sig: string)
    requires Split3(raw) == Some((h, b, sig))
    ensures var r := ParseAndCheckSig(v, raw, wantTyp);
      r.Ok? ==> ReadSegment(b, v.codec.claims) == Some(r.value.1)
  {
  }

  lemma SignedClaimsParse(v: Verifier, key: IssuerKey, claims: AuthClaims, wantTyp: string)
    requires Inverts(v.codec)
    ensures var r := ParseAndCheckSig(v, SignClaims(key, claims), wantTyp);
      r.Ok? ==> r.value.1 == claims
  {
    var header := Header("EdDSA", "auth+jwt", key.kid);
    var h, b := Json.Marshal(HeaderJson(header)), Json.Marshal(ClaimsJson(claims));
    var sig := key.sign(SigningInput(Seg(h), Seg(b)));
    CompactRoundTrip(h, b, sig);
    ParsedClaims(v, SignClaims(key, claims), wantTyp, Seg(h), Seg(b), Seg(sig));
    assert ReadSegment(Seg(b), v.codec.claims) == Some(claims);
  }

  lemma CheckedClaimsWereParsed(v: Verifier, p: Presentation)
    ensures Layer1Check(v, p).Ok? ==>
      ParseAndCheckSig(v, p.raw, "auth+jwt").Ok? && Layer1Check(v, p) == ParseAndCheckSig(v, p.raw, "auth+jwt")
  {
  }

  lemma AcceptedClaimsWereChecked(v: Verifier, seen: Seen, p: Presentation)
    ensures var (r, after) := Verify(v, seen, p);
      r.Ok? ==>
        && Layer1Check(v, p).Ok? && Layer1Check(v, p).value.1 == r.value
        && r.value.jti !in seen && after == seen[r.value.jti := r.value.exp]
  {
  }

  /** Whoever presents a signed token, the verifier reads the claims that were signed, or none. */
  lemma SignedClaimsAreRead(v: Verifier, key: IssuerKey, claims: AuthClaims, seen: Seen, p: Presentation)
    requires Inverts(v.codec) && p.raw == SignClaims(key, claims)
    ensures Verify(v, seen, p).0.Ok? ==>
      claims.jti !in seen && Verify(v, seen, p) == (Ok(claims), seen[claims.jti := claims.exp])
  {
    SignedClaimsParse(v, key, claims, "auth+jwt");
    CheckedClaimsWereParsed(v, p);
    AcceptedClaimsWereChecked(v, seen, p);
  }

  /** The web serves what the token refers to, as it stood when the token was minted. */
  ghost predicate Serves(web: Web, c: Primitives, key: IssuerKey, input: MintInput) {
    && FetchKey(web, input.psa.issuer) == Some(key.pub)
    && '#' !in input.psaBlobURL && web.psa(input.psaBlobURL) == Some(input.psa)
    && web.grant(GrantURL(input.psa.issuer, GrantHash(c, input.grant))) == Some(input.grant)
  }

  lemma ServedChainHolds(c: Primitives, codec: Codec, web: Web, registry: Registry, key: IssuerKey,
                         input: MintInput, mintedAt: int, jti: string, p: Presentation)
    requires Serves(web, c, key, input)
    requires PsaHolds(c, registry, p.nowPsa, input.psa, input.psa.issuer, Thumbprint(c, key.pub))
    requires GrantHolds(c, registry, p.nowGrant, input.grant, input.psa.root, input.agentID, p.requestThumb)
    ensures ChainHolds(WebVerifier(c, codec, web, registry), p, MintedClaims(c, input, mintedAt, jti), key.pub,
              input.psa, input.grant)
  {
    OwnSub(input.psa.registryChain, input.psa.root);
    SplitRefInvertsRef(input.psaBlobURL, PsaHash(c, input.psa));
    assert FetchPSA(c, web, Ref(input.psaBlobURL, PsaHash(c, input.psa))) == Some(input.psa);
    assert FetchGrant(c, web, input.psa.issuer, GrantHash(c, input.grant)) == Some(input.grant);
  }

  /**
   * Completeness: whatever Mint returns for a PSA and a grant that hold at the time of the check is accepted,
   * on its first presentation, before it expires, to its audience, by the holder of the granted key; and the
   * verifier reads exactly the minted claims.
   */
  lemma MintedTokenIsAccepted(c: Primitives, codec: Codec, web: Web, registry: Registry, key: IssuerKey,
                              input: MintInput, mintedAt: int, jti: string, seen: Seen, p: Presentation)
    requires MintToken(c, key, input, mintedAt, jti) == Ok(p.raw)
    requires Inverts(codec) && WorkingKey(c, key) && Serves(web, c, key, input)
    requires PsaDigest(c, input.psa).Some?
    requires SignedAs(c, input.psa.root, PsaDigest(c, input.psa).value, input.psa.signature.Items())
    requires input.psa.notBefore <= Unix(p.nowPsa) <= input.psa.notAfter
    requires registry(input.psa.registryChain, input.psa.registry, input.psa.root, input.psa.nonce) == Some(false)
    requires GrantHolds(c, registry, p.nowGrant, input.grant, input.psa.root, input.agentID, p.requestThumb)
    requires Thumbprint(c, input.agentKey) == p.requestThumb
    requires p.aud == input.resource.iss && jti !in seen
    requires Unix(p.now) < MintedClaims(c, input, mintedAt, jti).exp
    ensures var claims := MintedClaims(c, input, mintedAt, jti);
      Verify(WebVerifier(c, codec, web, registry), seen, p) == (Ok(claims), seen[jti := claims.exp])
  {
    var v, claims := WebVerifier(c, codec, web, registry), MintedClaims(c, input, mintedAt, jti);
    DigestChecksFields(c, input.psa);
    LifetimeBounded(mintedAt, input.ttl, input.psa.scope.maxTokenTTLSeconds);
    assert v.keyOf(claims.iss, key.kid) == Some(key.pub);
    MintedTokenParses(v, key, claims);
    ServedChainHolds(c, codec, web, registry, key, input, mintedAt, jti, p);
    VerifyExactly(v, seen, p, claims);
    Layer1Exactly(v, p, Header("EdDSA", "auth+jwt", key.kid), claims);
  }

  /** The documents behind a token's references are the ones it pins, or collide with them. */
  lemma PsaIsPinned(c: Primitives, web: Web, claims: AuthClaims, psa: PSA, url: string, q: PSA)
    requires FetchPSA(c, web, claims.psa) == Some(psa) && '#' !in url && claims.psa == Ref(url, PsaHash(c, q))
    ensures web.psa(url) == Some(psa)
    ensures psa == q || Collision(c.sha256, {Json.Marshal(PsaJson(psa))}, {Json.Marshal(PsaJson(q))})
  {
    SplitRefInvertsRef(url, PsaHash(c, q));
    FetchedPsaIsPinned(c, web, url, q);
  }

  lemma GrantIsPinned(c: Primitives, web: Web, claims: AuthClaims, grant: AgentGrant, g: AgentGrant)
    requires FetchGrant(c, web, claims.iss, claims.agS256) == Some(grant) && claims.agS256 == GrantHash(c, g)
    ensures web.grant(GrantURL(claims.iss, claims.agS256)) == Some(grant)
    ensures grant == g || Collision(c.sha256, {Json.Marshal(GrantJson(grant))}, {Json.Marshal(GrantJson(g))})
  {
    GrantHashPins(c, grant, g);
  }

  lemma ChainIsFetched(c: Primitives, codec: Codec, web: Web, registry: Registry, p: Presentation, claims: AuthClaims,
                       jwk: JWK, psa: PSA, grant: AgentGrant)
    requires ChainHolds(WebVerifier(c, codec, web, registry), p, claims, jwk, psa, grant)
    ensures FetchPSA(c, web, claims.psa) == Some(psa) && FetchGrant(c, web, claims.iss, claims.agS256) == Some(grant)
  {
  }

  lemma ChainIsPinned(c: Primitives, codec: Codec, web: Web, registry: Registry, p: Presentation, claims: AuthClaims,
                      jwk: JWK, psa: PSA, grant: AgentGrant, url: string, q: PSA, g: AgentGrant)
    requires ChainHolds(WebVerifier(c, codec, web, registry), p, claims, jwk, psa, grant)
    requires '#' !in url && claims.psa == Ref(url, PsaHash(c, q)) && claims.agS256 == GrantHash(c, g)
    ensures web.psa(url) == Some(psa) && web.grant(GrantURL(claims.iss, claims.agS256)) == Some(grant)
    ensures psa == q || Collision(c.sha256, {Json.Marshal(PsaJson(psa))}, {Json.Marshal(PsaJson(q))})
    ensures grant == g || Collision(c.sha256, {Json.Marshal(GrantJson(grant))}, {Json.Marshal(GrantJson(g))})
  {
    ChainIsFetched(c, codec, web, registry, p, claims, jwk, psa, grant);
    PsaIsPinned(c, web, claims, psa, url, q);
    GrantIsPinned(c, web, claims, grant, g);
  }

  // ---------------------------------------------------------------- replay

  /** Layer 1 over a sequence of presentations, each to a verifier as it was wired at that moment. */
  function Present(seen: Seen, ps: seq<(Verifier, Presentation)>): (seq<bool>, Seen)
    decreases |ps|
  {
    if ps == [] then ([], seen)
    else
      var (results, before) := Present(seen, ps[..|ps| - 1]);
      var (result, after) := Layer1(ps[|ps| - 1].0, before, ps[|ps| - 1].1);
      (results + [result.Ok?], after)
  }

  /** The jti of a presentation that passes every stateless check. */
  function Passing(p: (Verifier, Presentation)): Option<string> {
    match Layer1Check(p.0, p.1)
    case Ok((_, claims)) => Some(claims.jti)
    case Err(_) => None
  }

  /** The jtis of all presentations that pass the stateless checks. */
  function PassingJtis(ps: seq<(Verifier, Presentation)>): set<string>
    decreases |ps|
  {
    if ps == [] then {}
    else PassingJtis(ps[..|ps| - 1]) + JtiOf(Passing(ps[|ps| - 1]))
  }

  function JtiOf(o: Option<string>): set<string> {
    if o.Some? then {o.value} else {}
  }

  lemma OnePresentation(v: Verifier, seen: Seen, p: Presentation)
    ensures var (result, after) := Layer1(v, seen, p);
      && (result.Ok? <==> Passing((v, p)).Some? && Passing((v, p)).value !in seen)
      && after.Keys == seen.Keys + JtiOf(Passing((v, p)))
  {
  }

  lemma {:induction false} CacheHoldsPassing(seen: Seen, ps: seq<(Verifier, Presentation)>)
    ensures Present(seen, ps).1.Keys == seen.Keys + PassingJtis(ps)
    decreases |ps|
  {
    if ps != [] {
      var last := ps[|ps| - 1];
      CacheHoldsPassing(seen, ps[..|ps| - 1]);
      OnePresentation(last.0, Present(seen, ps[..|ps| - 1]).1, last.1);
    }
  }

  lemma {:induction false} OneResultEach(seen: Seen, ps: seq<(Verifier, Presentation)>)
    ensures |Present(seen, ps).0| == |ps|
    decreases |ps|
  {
    if ps != [] {
      OneResultEach(seen, ps[..|ps| - 1]);
    }
  }

  lemma LastResult(seen: Seen, ps: seq<(Verifier, Presentation)>)
    requires ps != []
    ensures var init, last := ps[..|ps| - 1], ps[|ps| - 1];
      Present(seen, ps).0 == Present(seen, init).0 + [Layer1(last.0, Present(seen, init).1, last.1).0.Ok?]
  {
  }

  lemma {:induction false} ResultAt(seen: Seen, ps: seq<(Verifier, Presentation)>, i: nat)
    requires i < |ps| == |Present(seen, ps).0|
    ensures Present(seen, ps).0[i] == Layer1(ps[i].0, Present(seen, ps[..i]).1, ps[i].1).0.Ok?
    decreases |ps|
  {
    var init := ps[..|ps| - 1];
    LastResult(seen, ps);
    OneResultEach(seen, init);
    if i == |init| {
      assert Present(seen, ps).0[i] == Layer1(ps[i].0, Present(seen, init).1, ps[i].1).0.Ok?;
    } else {
      ResultAt(seen, init, i);
      assert init[..i] == ps[..i] && init[i] == ps[i];
      assert Present(seen, ps).0[i] == Present(seen, init).0[i];
    }
  }

  /**
   * Replay protection exactly: a presentation is accepted iff it passes every stateless check and its jti is
   * neither in the cache at the start nor that of an earlier presentation that passed them; the cache ends up
   * with the jtis of the passing presentations and no others. So one that fails a check has no later effect.
   */
  lemma FirstPassingPresentationWins(seen: Seen, ps: seq<(Verifier, Presentation)>)
    ensures |Present(seen, ps).0| == |ps|
    ensures forall i :: 0 <= i < |ps| ==>
      (Present(seen, ps).0[i] <==>
        Passing(ps[i]).Some? && Passing(ps[i]).value !in seen.Keys + PassingJtis(ps[..i]))
    ensures Present(seen, ps).1.Keys == seen.Keys + PassingJtis(ps)
  {
    OneResultEach(seen, ps);
    forall i | 0 <= i < |ps|
      ensures Present(seen, ps).0[i] <==>
        Passing(ps[i]).Some? && Passing(ps[i]).value !in seen.Keys + PassingJtis(ps[..i])
    {
      ResultAt(seen, ps, i);
      OnePresentation(ps[i].0, Present(seen, ps[..i]).1, ps[i].1);
      CacheHoldsPassing(seen, ps[..i]);
    }
    CacheHoldsPassing(seen, ps);
  }

  class ReplayCache {
    var seen: Seen

    constructor ()
      ensures seen == map[]
    {
      seen := map[];
    }

    /** Was this jti seen before? If not, it is now. */
    method SeenJTI(jti: string, exp: int) returns (already: bool)
      modifies this
      ensures already <==> jti in old(seen)
      ensures seen == if already then old(seen) else old(seen)[jti := exp]
    {
      already := jti in seen;
      if !already {
        seen := seen[jti := exp];
      }
    }
  }

  method VerifyLayer1(v: Verifier, cache: ReplayCache, p: Presentation)
    returns (r: Result<(Header, AuthClaims), Error>)
    modifies cache
    ensures (r, cache.seen) == Layer1(v, old(cache.seen), p)
  {
    r := Layer1Check(v, p);
    if r.Ok? {
      var replayed := cache.SeenJTI(r.value.1.jti, r.value.1.exp);
      if replayed {
        r := Err(Replayed);
      }
    }
  }

  method VerifyToken(v: Verifier, cache: ReplayCache, p: Presentation) returns (r: Result<AuthClaims, Error>)
    modifies cache
    ensures (r, cache.seen) == Verify(v, old(cache.seen), p)
  {
    var first := VerifyLayer1(v, cache, p);
    if first.Err? {
      return Err(first.error);
    }
    var (header, claims) := first.value;
    if claims.psa == "" {
      return Ok(claims);
    }
    var second := Layer2(v, p, header, claims);
    r := if second.Some? then Err(second.value) else Ok(claims);
  }

  /** The resource's decision: with key-rooting required, a token without a PSA is refused after all. */
  function Decision(v: Verifier, seen: Seen, p: Presentation, requireKeyRooted: bool): (Option<AuthClaims>, Seen) {
    var (r, after) := if requireKeyRooted then Verify(v, seen, p) else VerifyVanilla(v, seen, p);
    (if r.Ok? && (requireKeyRooted ==> r.value.psa != "") then Some(r.value) else None, after)
  }

  method Whoami(v: Verifier, cache: ReplayCache, p: Presentation, requireKeyRooted: bool)
    returns (accepted: Option<AuthClaims>)
    modifies cache
    ensures (accepted, cache.seen) == Decision(v, old(cache.seen), p, requireKeyRooted)
  {
    if requireKeyRooted {
      var r := VerifyToken(v, cache, p);
      return if r.Ok? && r.value.psa != "" then Some(r.value) else None;
    }
    var first := VerifyLayer1(v, cache, p);
    accepted := if first.Ok? then Some(first.value.1) else None;
  }

  /**
   * What the two modes differ in: a resource that requires key-rooting accepts only what the other would, and of that
   * exactly the tokens whose chain to a root holds; and both leave the same cache.
   */
  lemma KeyRootingOnlyRefuses(v: Verifier, seen: Seen, p: Presentation)
    ensures Decision(v, seen, p, true).1 == Decision(v, seen, p, false).1
    ensures Decision(v, seen, p, true).0.Some? <==>
      && Decision(v, seen, p, false).0.Some?
      && var claims := Decision(v, seen, p, false).0.value;
         claims.psa != "" && Verify(v, seen, p).0 == Ok(claims)
    ensures Decision(v, seen, p, true).0.Some? ==> Decision(v, seen, p, true).0 == Decision(v, seen, p, false).0
  {
  }
}
