// internal/attest: the two root-signed attestations, their digests, their verification and their content hash.
module Attest {
  import opened Addresses
  import opened Basics
  import opened Crypto
  import Eip712
  import Json
  import opened Text

  datatype Scope = Scope(
    maxTokenTTLSeconds: int,
    allowedClaims: Slice<string>,
    paymentCapWei: string,
    stepUpAboveWei: string
  )

  datatype PSA = PSA(
    root: string,
    issuer: string,
    keyThumbprints: Slice<string>,
    scope: Scope,
    notBefore: int,
    notAfter: int,
    registryChain: int,
    registry: string,
    nonce: nat,
    signature: Slice<byte>
  )

  datatype AgentGrant = AgentGrant(
    root: string,
    agentIdentifier: string,
    agentThumbprint: string,
    agentPubKey: string,
    missionScopeS256: string,
    notBefore: int,
    notAfter: int,
    registryChain: int,
    registry: string,
    nonce: nat,
    signature: Slice<byte>
  )

  // ---------------------------------------------------------------- digests

  const EIP712_NAME := "SignetPS"

  const EIP712_VERSION := "1"

  const DOMAIN_NAME := "EIP712Domain"

  const DOMAIN_MEMBERS :=
    "string name," + ("string version," + ("uint256 chainId," + "address verifyingContract"))

  const DOMAIN_TYPE := DOMAIN_NAME + "(" + DOMAIN_MEMBERS + ")"

  const SCOPE_NAME := "Scope"

  const SCOPE_MEMBERS :=
    "uint256 maxTokenTTLSeconds," + ("bytes32 allowedClaimsHash," + ("uint256 paymentCapWei,"
    + "uint256 stepUpAboveWei"))

  const SCOPE_TYPE := SCOPE_NAME + "(" + SCOPE_MEMBERS + ")"

  const PSA_NAME := "PersonServerAuthorization"

  const PSA_MEMBERS :=
    "address root," + ("string issuer," + ("bytes32 keyThumbprintsHash," + ("Scope scope," + ("uint256 notBefore,"
    + ("uint256 notAfter," + "uint256 nonce")))))

  const PSA_TYPE := PSA_NAME + "(" + PSA_MEMBERS + ")" + SCOPE_TYPE

  const GRANT_NAME := "AgentGrant"

  const GRANT_MEMBERS :=
    "address root," + ("string agentIdentifier," + ("string agentThumbprint," + ("bytes32 missionScopeS256,"
    + ("uint256 notBefore," + ("uint256 notAfter," + "uint256 nonce")))))

  const GRANT_TYPE := GRANT_NAME + "(" + GRANT_MEMBERS + ")"

  /** A number enters a digest as its decimal text. */
  function Number(n: int): Eip712.Field {
    Eip712.NumberField(ShowInt(n))
  }

  function TextField(s: string): Eip712.Field {
    Eip712.HashField(Utf8(s))
  }

  /** A string list enters a digest as the hash of its JSON text. */
  function ListField(xs: Slice<string>): Eip712.Field {
    Eip712.HashField(Json.Marshal(Json.Strings(xs)))
  }

  function OrZero(s: string): string {
    if s == "" then "0" else s
  }

  function AmountField(s: string): Eip712.Field {
    Eip712.NumberField(OrZero(s))
  }

  /** An amount is covered as the number its text denotes, none at all as zero. */
  lemma AmountIsNumber(s: string)
    ensures Eip712.UintOfText(AmountField(s).text) == if s == "" then Some(0) else Eip712.UintOfText(s)
  {
    if s == "" {
      Eip712.ShowIntIsDecimal(0);
      assert ShowInt(0) == "0";
    }
  }

  function Domain(chainID: int, registry: string): Eip712.Field {
    Eip712.Struct(DOMAIN_TYPE,
      [TextField(EIP712_NAME), TextField(EIP712_VERSION), Number(chainID), Eip712.AddressField(registry)])
  }

  function ScopeMessage(s: Scope): Eip712.Field {
    Eip712.Struct(SCOPE_TYPE,
      [Number(s.maxTokenTTLSeconds), ListField(s.allowedClaims),
       AmountField(s.paymentCapWei), AmountField(s.stepUpAboveWei)])
  }

  function PsaMessage(p: PSA): Eip712.Field {
    Eip712.Struct(PSA_TYPE,
      [Eip712.AddressField(p.root), TextField(p.issuer), ListField(p.keyThumbprints), ScopeMessage(p.scope),
       Number(p.notBefore), Number(p.notAfter), Number(p.nonce)])
  }

  function GrantMessage(g: AgentGrant): Eip712.Field {
    Eip712.Struct(GRANT_TYPE,
      [Eip712.AddressField(g.root), TextField(g.agentIdentifier), TextField(g.agentThumbprint),
       Eip712.HexField(g.missionScopeS256), Number(g.notBefore), Number(g.notAfter), Number(g.nonce)])
  }

  lemma DomainMembers()
    ensures "string" + " " + "name" + "," + ("string" + " " + "version" + "," + ("uint256" + " " + "chainId" + ","
              + ("address" + " " + "verifyingContract"))) == DOMAIN_MEMBERS
  {
    assert "string" + " " + "name" + "," == "string name,";
    assert "string" + " " + "version" + "," == "string version,";
    assert "uint256" + " " + "chainId" + "," == "uint256 chainId,";
    assert "address" + " " + "verifyingContract" == "address verifyingContract";
  }

  lemma ScopeMembers()
    ensures "uint256" + " " + "maxTokenTTLSeconds" + "," + ("bytes32" + " " + "allowedClaimsHash" + "," + ("uint256"
              + " " + "paymentCapWei" + "," + ("uint256" + " " + "stepUpAboveWei"))) == SCOPE_MEMBERS
  {
    assert "uint256" + " " + "maxTokenTTLSeconds" + "," == "uint256 maxTokenTTLSeconds,";
    assert "bytes32" + " " + "allowedClaimsHash" + "," == "bytes32 allowedClaimsHash,";
    assert "uint256" + " " + "paymentCapWei" + "," == "uint256 paymentCapWei,";
    assert "uint256" + " " + "stepUpAboveWei" == "uint256 stepUpAboveWei";
  }

  lemma PsaMembers()
    ensures "address" + " " + "root" + "," + ("string" + " " + "issuer" + "," + ("bytes32" + " "
              + "keyThumbprintsHash" + "," + ("Scope" + " " + "scope" + "," + ("uint256" + " " + "notBefore" + ","
              + ("uint256" + " " + "notAfter" + "," + ("uint256" + " " + "nonce")))))) == PSA_MEMBERS
  {
    assert "address" + " " + "root" + "," == "address root,";
    assert "string" + " " + "issuer" + "," == "string issuer,";
    assert "bytes32" + " " + "keyThumbprintsHash" + "," == "bytes32 keyThumbprintsHash,";
    assert "Scope" + " " + "scope" + "," == "Scope scope,";
    assert "uint256" + " " + "notBefore" + "," == "uint256 notBefore,";
    assert "uint256" + " " + "notAfter" + "," == "uint256 notAfter,";
    assert "uint256" + " " + "nonce" == "uint256 nonce";
  }

  lemma GrantMembers()
    ensures "address" + " " + "root" + "," + ("string" + " " + "agentIdentifier" + "," + ("string" + " "
              + "agentThumbprint" + "," + ("bytes32" + " " + "missionScopeS256" + "," + ("uint256" + " " + "notBefore"
              + "," + ("uint256" + " " + "notAfter" + "," + ("uint256" + " " + "nonce")))))) == GRANT_MEMBERS
  {
    assert "address" + " " + "root" + "," == "address root,";
    assert "string" + " " + "agentIdentifier" + "," == "string agentIdentifier,";
    assert "string" + " " + "agentThumbprint" + "," == "string agentThumbprint,";
    assert "bytes32" + " " + "missionScopeS256" + "," == "bytes32 missionScopeS256,";
    assert "uint256" + " " + "notBefore" + "," == "uint256 notBefore,";
    assert "uint256" + " " + "notAfter" + "," == "uint256 notAfter,";
    assert "uint256" + " " + "nonce" == "uint256 nonce";
  }

  /** What a domain separator covers, member by member. */
  lemma DomainIsLaidOut(chainID: int, registry: string)
    ensures Eip712.LaidOut(Domain(chainID, registry), "EIP712Domain",
      [Eip712.Row("string", "name", TextField("SignetPS")), Eip712.Row("string", "version", TextField("1")),
       Eip712.Row("uint256", "chainId", Number(chainID)),
       Eip712.Row("address", "verifyingContract", Eip712.AddressField(registry))], "")
  {
    DomainMembers();
    Eip712.FourLaidOut(Domain(chainID, registry), DOMAIN_NAME, DOMAIN_MEMBERS, "",
      Eip712.Row("string", "name", TextField("SignetPS")), Eip712.Row("string", "version", TextField("1")),
      Eip712.Row("uint256", "chainId", Number(chainID)),
      Eip712.Row("address", "verifyingContract", Eip712.AddressField(registry)));
  }

  lemma ScopeIsLaidOut(s: Scope)
    ensures Eip712.LaidOut(ScopeMessage(s), "Scope",
      [Eip712.Row("uint256", "maxTokenTTLSeconds", Number(s.maxTokenTTLSeconds)),
       Eip712.Row("bytes32", "allowedClaimsHash", ListField(s.allowedClaims)),
       Eip712.Row("uint256", "paymentCapWei", AmountField(s.paymentCapWei)),
       Eip712.Row("uint256", "stepUpAboveWei", AmountField(s.stepUpAboveWei))], "")
  {
    ScopeMembers();
    Eip712.FourLaidOut(ScopeMessage(s), SCOPE_NAME, SCOPE_MEMBERS, "",
      Eip712.Row("uint256", "maxTokenTTLSeconds", Number(s.maxTokenTTLSeconds)),
      Eip712.Row("bytes32", "allowedClaimsHash", ListField(s.allowedClaims)),
      Eip712.Row("uint256", "paymentCapWei", AmountField(s.paymentCapWei)),
      Eip712.Row("uint256", "stepUpAboveWei", AmountField(s.stepUpAboveWei)));
  }

  /** What a PSA's signature covers, member by member; the scope is a struct of its own. */
  lemma PsaIsLaidOut(p: PSA)
    ensures Eip712.LaidOut(PsaMessage(p), "PersonServerAuthorization",
      [Eip712.Row("address", "root", Eip712.AddressField(p.root)), Eip712.Row("string", "issuer", TextField(p.issuer)),
       Eip712.Row("bytes32", "keyThumbprintsHash", ListField(p.keyThumbprints)),
       Eip712.Row("Scope", "scope", ScopeMessage(p.scope)), Eip712.Row("uint256", "notBefore", Number(p.notBefore)),
       Eip712.Row("uint256", "notAfter", Number(p.notAfter)), Eip712.Row("uint256", "nonce", Number(p.nonce))],
      ScopeMessage(p.scope).typeText)
  {
    PsaMembers();
    Eip712.SevenLaidOut(PsaMessage(p), PSA_NAME, PSA_MEMBERS, SCOPE_TYPE,
      Eip712.Row("address", "root", Eip712.AddressField(p.root)), Eip712.Row("string", "issuer", TextField(p.issuer)),
      Eip712.Row("bytes32", "keyThumbprintsHash", ListField(p.keyThumbprints)),
      Eip712.Row("Scope", "scope", ScopeMessage(p.scope)), Eip712.Row("uint256", "notBefore", Number(p.notBefore)),
      Eip712.Row("uint256", "notAfter", Number(p.notAfter)), Eip712.Row("uint256", "nonce", Number(p.nonce)));
  }

  /** What a grant's signature covers; the agent's public key is not among it. */
  lemma GrantIsLaidOut(g: AgentGrant)
    ensures Eip712.LaidOut(GrantMessage(g), "AgentGrant",
      [Eip712.Row("address", "root", Eip712.AddressField(g.root)),
       Eip712.Row("string", "agentIdentifier", TextField(g.agentIdentifier)),
       Eip712.Row("string", "agentThumbprint", TextField(g.agentThumbprint)),
       Eip712.Row("bytes32", "missionScopeS256", Eip712.HexField(g.missionScopeS256)),
       Eip712.Row("uint256", "notBefore", Number(g.notBefore)), Eip712.Row("uint256", "notAfter", Number(g.notAfter)),
       Eip712.Row("uint256", "nonce", Number(g.nonce))], "")
  {
    GrantMembers();
    Eip712.SevenLaidOut(GrantMessage(g), GRANT_NAME, GRANT_MEMBERS, "",
      Eip712.Row("address", "root", Eip712.AddressField(g.root)),
      Eip712.Row("string", "agentIdentifier", TextField(g.agentIdentifier)),
      Eip712.Row("string", "agentThumbprint", TextField(g.agentThumbprint)),
      Eip712.Row("bytes32", "missionScopeS256", Eip712.HexField(g.missionScopeS256)),
      Eip712.Row("uint256", "notBefore", Number(g.notBefore)), Eip712.Row("uint256", "notAfter", Number(g.notAfter)),
      Eip712.Row("uint256", "nonce", Number(g.nonce)));
  }

  /** None: some field has no valid encoding, so there is nothing to sign. */
  function PsaDigest(c: Primitives, p: PSA): Option<Bytes32> {
    Eip712.Digest(c, Domain(p.registryChain, p.registry), PsaMessage(p))
  }

  function AgentGrantDigest(c: Primitives, g: AgentGrant): Option<Bytes32> {
    Eip712.Digest(c, Domain(g.registryChain, g.registry), GrantMessage(g))
  }

  // ---------------------------------------------------------------- root signatures

  function LowerHexLetter(ch: char): char {
    if 'A' <= ch <= 'F' then (ch as int + 32) as char else ch
  }

  function NormalizeHex(s: string): string {
    var body := Eip712.DropHexPrefix(s);
    seq(|body|, i requires 0 <= i < |body| => LowerHexLetter(body[i]))
  }

  /** The recovery byte of a 65-byte signature, brought from 27/28 down to 0/1. */
  function WithPlainRecoveryByte(sig: Bytes): Bytes
    requires |sig| == 65
  {
    if sig[64] >= 27 then sig[64 := sig[64] - 27] else sig
  }

  /** The signature recovers to the root's address, in any casing. */
  predicate RootSigned(c: Primitives, root: string, digest: Bytes32, sig: Bytes) {
    && |sig| == 65
    && var signer := c.recover(digest, WithPlainRecoveryByte(sig));
       signer.Some? && NormalizeHex(AddressText(c, signer.value)) == NormalizeHex(root)
  }

  /** The account whose signature over the digest this is; the recovery byte counts from 0 or from 27. */
  function SignerOf(c: Primitives, digest: Bytes32, sig: Bytes): Option<Bytes20> {
    if |sig| != 65 then None
    else c.recover(digest, sig[..64] + [if sig[64] < 27 then sig[64] else sig[64] - 27])
  }

  /** The text names an account, and the signature is that account's. */
  predicate SignedAs(c: Primitives, root: string, digest: Bytes32, sig: Bytes) {
    Eip712.AddressBytes(root).Some? && SignerOf(c, digest, sig) == Eip712.AddressBytes(root)
  }

  lemma NormalFormNames(s: string, a: Bytes20)
    ensures NormalizeHex(s) == HexEncode(a) <==> Eip712.AddressBytes(s) == Some(a)
  {
    var body, small := Eip712.DropHexPrefix(s), HexEncode(a);
    HexEncodeIsSmall(a);
    HexDecodeExactly(body, a);
    if NormalizeHex(s) == small {
      forall i | 0 <= i < |body|
        ensures SameLetter(body[i], small[i])
      {
        assert NormalizeHex(s)[i] == LowerHexLetter(body[i]);
      }
    }
    if SameLetters(body, small) {
      forall i | 0 <= i < |body|
        ensures NormalizeHex(s)[i] == small[i]
      {
        assert SameLetter(body[i], small[i]);
      }
    }
  }

  /** A root's signature verifies exactly if it recovers to the twenty bytes that the root's text names, in any casing. */
  lemma RootSignedExactly(c: Primitives, root: string, digest: Bytes32, sig: Bytes)
    ensures RootSigned(c, root, digest, sig) <==> SignedAs(c, root, digest, sig)
  {
    if |sig| == 65 {
      assert WithPlainRecoveryByte(sig) == sig[..64] + [if sig[64] < 27 then sig[64] else sig[64] - 27];
      var signer := SignerOf(c, digest, sig);
      if signer.Some? {
        AddressTextNames(c, signer.value);
        NormalFormNames(AddressText(c, signer.value), signer.value);
        NormalFormNames(root, signer.value);
      }
    }
  }

  method NormalizeHexInPlace(s: string) returns (out: array<char>)
    ensures fresh(out) && out[..] == NormalizeHex(s)
  {
    var body := Eip712.DropHexPrefix(s);
    out := new char[|body|];
    for i := 0 to |body|
      invariant forall j :: 0 <= j < i ==> out[j] == LowerHexLetter(body[j])
    {
      var ch := body[i];
      if 'A' <= ch <= 'F' {
        ch := (ch as int + 32) as char;
      }
      out[i] := ch;
    }
  }

  /** verifyRootSig without a contract verifier: the caller's signature bytes are copied before the edit. */
  method VerifyRootSig(c: Primitives, root: string, digest: Bytes32, sig: array<byte>) returns (ok: bool)
    ensures ok <==> RootSigned(c, root, digest, sig[..])
    ensures ok <==> SignedAs(c, root, digest, sig[..])
  {
    RootSignedExactly(c, root, digest, sig[..]);
    if sig.Length == 65 {
      var copy := new byte[65](i requires 0 <= i < 65 reads sig => sig[i]);
      if copy[64] >= 27 {
        copy[64] := copy[64] - 27;
      }
      assert copy[..] == WithPlainRecoveryByte(sig[..]);
      var signer := c.recover(digest, copy[..]);
      if signer.Some? {
        var a := NormalizeHexInPlace(AddressText(c, signer.value));
        var b := NormalizeHexInPlace(root);
        return a[..] == b[..];
      }
    }
    return false;
  }

  // ---------------------------------------------------------------- verification

  /** Is the grant (root, nonce) revoked? None: the registry could not be read. */
  type Registry = (int, string, string, nat) -> Option<bool>

  datatype Refusal =
    | IssuerMismatch
    | KeyNotAuthorized
    | RootMismatch
    | AgentMismatch
    | AgentKeyMismatch
    | OutsideWindow
    | BadDigest
    | BadRootSignature
    | RegistryUnavailable
    | Revoked

  function Check(ok: bool, refusal: Refusal, next: Option<Refusal>): Option<Refusal> {
    if ok then next else Some(refusal)
  }

  function Liveness(answer: Option<bool>): Option<Refusal> {
    match answer
    case None => Some(RegistryUnavailable)
    case Some(revoked) => if revoked then Some(Revoked) else None
  }

  function SignatureAndLiveness(c: Primitives, registry: Registry, chain: int, contract: string,
                                root: string, nonce: nat, digest: Option<Bytes32>, sig: Slice<byte>)
    : Option<Refusal>
  {
    match digest
    case None => Some(BadDigest)
    case Some(d) =>
      Check(RootSigned(c, root, d, sig.Items()), BadRootSignature,
        Liveness(registry(chain, contract, root, nonce)))
  }

  /** None when the PSA is accepted for this issuer and signing key at the given instant. */
  function VerifyPSA(c: Primitives, registry: Registry, now: int, p: PSA, issuer: string, keyThumb: string)
    : Option<Refusal>
  {
    Check(p.issuer == issuer, IssuerMismatch,
    Check(p.notBefore <= Unix(now) <= p.notAfter, OutsideWindow,
    Check(keyThumb in p.keyThumbprints.Items(), KeyNotAuthorized,
      SignatureAndLiveness(c, registry, p.registryChain, p.registry, p.root, p.nonce, PsaDigest(c, p), p.signature))))
  }

  function VerifyAgentGrant(c: Primitives, registry: Registry, now: int, g: AgentGrant,
                            root: string, agentID: string, agentThumb: string)
    : Option<Refusal>
  {
    Check(g.root == root, RootMismatch,
    Check(g.agentIdentifier == agentID, AgentMismatch,
    Check(g.agentThumbprint == agentThumb, AgentKeyMismatch,
    Check(g.notBefore <= Unix(now) <= g.notAfter, OutsideWindow,
      SignatureAndLiveness(c, registry, g.registryChain, g.registry, g.root, g.nonce,
        AgentGrantDigest(c, g), g.signature)))))
  }

  /** What acceptance of a PSA means, condition by condition. */
  ghost predicate PsaHolds(c: Primitives, registry: Registry, now: int, p: PSA, issuer: string, keyThumb: string) {
    && p.issuer == issuer
    && p.notBefore <= Unix(now) <= p.notAfter
    && keyThumb in p.keyThumbprints.Items()
    && PsaDigest(c, p).Some?
    && SignedAs(c, p.root, PsaDigest(c, p).value, p.signature.Items())
    && registry(p.registryChain, p.registry, p.root, p.nonce) == Some(false)
  }

  ghost predicate GrantHolds(c: Primitives, registry: Registry, now: int, g: AgentGrant,
                             root: string, agentID: string, agentThumb: string)
  {
    && g.root == root && g.agentIdentifier == agentID && g.agentThumbprint == agentThumb
    && g.notBefore <= Unix(now) <= g.notAfter
    && AgentGrantDigest(c, g).Some?
    && SignedAs(c, g.root, AgentGrantDigest(c, g).value, g.signature.Items())
    && registry(g.registryChain, g.registry, g.root, g.nonce) == Some(false)
  }

  lemma VerifyPSAExactly(c: Primitives, registry: Registry, now: int, p: PSA, issuer: string, keyThumb: string)
    ensures VerifyPSA(c, registry, now, p, issuer, keyThumb).None? <==> PsaHolds(c, registry, now, p, issuer, keyThumb)
  {
    if PsaDigest(c, p).Some? {
      RootSignedExactly(c, p.root, PsaDigest(c, p).value, p.signature.Items());
    }
  }

  lemma VerifyAgentGrantExactly(c: Primitives, registry: Registry, now: int, g: AgentGrant,
                                root: string, agentID: string, agentThumb: string)
    ensures VerifyAgentGrant(c, registry, now, g, root, agentID, agentThumb).None?
       <==> GrantHolds(c, registry, now, g, root, agentID, agentThumb)
  {
    if AgentGrantDigest(c, g).Some? {
      RootSignedExactly(c, g.root, AgentGrantDigest(c, g).value, g.signature.Items());
    }
  }

  /** A PSA that has a digest names a real address and a time limit that is not negative. */
  lemma DigestChecksFields(c: Primitives, p: PSA)
    requires PsaDigest(c, p).Some?
    ensures Eip712.AddressBytes(p.root).Some?
    ensures p.scope.maxTokenTTLSeconds >= 0
  {
    RootAndScopeEncode(c, p, PsaMessage(p));
    FirstNumberEncodes(c, ScopeMessage(p.scope), p.scope.maxTokenTTLSeconds);
  }

  lemma RootAndScopeEncode(c: Primitives, p: PSA, m: Eip712.Field)
    requires m.Struct? && |m.fields| > 3 && m.fields[0] == Eip712.AddressField(p.root)
    requires Eip712.Encode(c, m).Some?
    ensures Eip712.AddressBytes(p.root).Some?
    ensures Eip712.Encode(c, m.fields[3]).Some?
  {
    StructFieldEncodes(c, m, 0);
    StructFieldEncodes(c, m, 3);
  }

  lemma FirstNumberEncodes(c: Primitives, f: Eip712.Field, n: int)
    requires f.Struct? && |f.fields| > 0 && f.fields[0] == Number(n)
    requires Eip712.Encode(c, f).Some?
    ensures n >= 0
  {
    StructFieldEncodes(c, f, 0);
    Eip712.ShowIntIsDecimal(n);
  }

  lemma StructFieldEncodes(c: Primitives, f: Eip712.Field, i: nat)
    requires f.Struct? && i < |f.fields| && Eip712.Encode(c, f).Some?
    ensures Eip712.Encode(c, f.fields[i]).Some?
  {
    FieldEncodes(c, f.fields, i);
  }

  lemma {:induction false} FieldEncodes(c: Primitives, fields: seq<Eip712.Field>, i: nat)
    requires i < |fields| && Eip712.EncodeAll(c, fields).Some?
    ensures Eip712.Encode(c, fields[i]).Some?
  {
    if i > 0 {
      FieldEncodes(c, fields[1..], i - 1);
    }
  }

  // ---------------------------------------------------------------- content hashes

  function ScopeJson(s: Scope): Json.Value {
    Json.Obj(
      Json.Member("maxTokenTTLSeconds", Json.Num(s.maxTokenTTLSeconds),
      Json.Member("allowedClaims", Json.Strings(s.allowedClaims),
      Json.Member("paymentCapWei", Json.Str(s.paymentCapWei),
      Json.Member("stepUpAboveWei", Json.Str(s.stepUpAboveWei),
      Json.NoMembers)))))
  }

  function PsaJson(p: PSA): Json.Value {
    Json.Obj(
      Json.Member("root", Json.Str(p.root),
      Json.Member("issuer", Json.Str(p.issuer),
      Json.Member("keyThumbprints", Json.Strings(p.keyThumbprints),
      Json.Member("scope", ScopeJson(p.scope),
      Json.Member("notBefore", Json.Num(p.notBefore),
      Json.Member("notAfter", Json.Num(p.notAfter),
      Json.Member("registryChain", Json.Num(p.registryChain),
      Json.Member("registry", Json.Str(p.registry),
      Json.Member("nonce", Json.Num(p.nonce),
      Json.Member("signature", Json.Blob(p.signature),
      Json.NoMembers)))))))))))
  }

  function OptionalText(key: string, s: string, rest: Json.Members): Json.Members {
    if s == "" then rest else Json.Member(key, Json.Str(s), rest)
  }

  function GrantJson(g: AgentGrant): Json.Value {
    Json.Obj(
      Json.Member("root", Json.Str(g.root),
      Json.Member("agentIdentifier", Json.Str(g.agentIdentifier),
      Json.Member("agentThumbprint", Json.Str(g.agentThumbprint),
      OptionalText("agentPubKey", g.agentPubKey,
      Json.Member("missionScopeS256", Json.Str(g.missionScopeS256),
      Json.Member("notBefore", Json.Num(g.notBefore),
      Json.Member("notAfter", Json.Num(g.notAfter),
      Json.Member("registryChain", Json.Num(g.registryChain),
      Json.Member("registry", Json.Str(g.registry),
      Json.Member("nonce", Json.Num(g.nonce),
      Json.Member("signature", Json.Blob(g.signature),
      Json.NoMembers))))))))))))
  }

  function ContentHash(c: Primitives, v: Json.Value): string {
    HexEncode(c.sha256(Json.Marshal(v)))
  }

  function PsaHash(c: Primitives, p: PSA): string {
    ContentHash(c, PsaJson(p))
  }

  function GrantHash(c: Primitives, g: AgentGrant): string {
    ContentHash(c, GrantJson(g))
  }

  lemma GrantJsonInjective(g: AgentGrant, h: AgentGrant)
    requires GrantJson(g) == GrantJson(h)
    ensures g == h
  {
    var m, n := GrantJson(g).members.rest.rest.rest, GrantJson(h).members.rest.rest.rest;
    assert g.agentPubKey == "" <==> m.key == "missionScopeS256";
    assert h.agentPubKey == "" <==> n.key == "missionScopeS256";
    Json.BlobInjective(g.signature, h.signature);
  }

  lemma PsaJsonInjective(p: PSA, q: PSA)
    requires PsaJson(p) == PsaJson(q)
    ensures p == q
  {
    Json.StringsInjective(p.keyThumbprints, q.keyThumbprints);
    Json.StringsInjective(p.scope.allowedClaims, q.scope.allowedClaims);
    Json.BlobInjective(p.signature, q.signature);
  }

  /** A content hash pins the grant it was taken of, signature included, up to a SHA-256 collision. */
  /** A content hash is the hexadecimal text of the SHA-256 hash of the JSON text. */
  lemma HashIsRead(c: Primitives, p: PSA, g: AgentGrant)
    ensures HexDecode(PsaHash(c, p)) == Some(c.sha256(Json.Marshal(PsaJson(p))))
    ensures HexDecode(GrantHash(c, g)) == Some(c.sha256(Json.Marshal(GrantJson(g))))
  {
    HexRoundTrip(c.sha256(Json.Marshal(PsaJson(p))));
    HexRoundTrip(c.sha256(Json.Marshal(GrantJson(g))));
  }

  lemma GrantHashPins(c: Primitives, g: AgentGrant, h: AgentGrant)
    requires GrantHash(c, g) == GrantHash(c, h)
    ensures g == h || Collision(c.sha256, {Json.Marshal(GrantJson(g))}, {Json.Marshal(GrantJson(h))})
  {
    var x, y := Json.Marshal(GrantJson(g)), Json.Marshal(GrantJson(h));
    HexInjective(c.sha256(x), c.sha256(y));
    SameHash(c.sha256, {x}, {y}, x, y);
    if x == y {
      Json.MarshalInjective(GrantJson(g), GrantJson(h));
      GrantJsonInjective(g, h);
    }
  }

  lemma PsaHashPins(c: Primitives, p: PSA, q: PSA)
    requires PsaHash(c, p) == PsaHash(c, q)
    ensures p == q || Collision(c.sha256, {Json.Marshal(PsaJson(p))}, {Json.Marshal(PsaJson(q))})
  {
    var x, y := Json.Marshal(PsaJson(p)), Json.Marshal(PsaJson(q));
    HexInjective(c.sha256(x), c.sha256(y));
    SameHash(c.sha256, {x}, {y}, x, y);
    if x == y {
      Json.MarshalInjective(PsaJson(p), PsaJson(q));
      PsaJsonInjective(p, q);
    }
  }
}
