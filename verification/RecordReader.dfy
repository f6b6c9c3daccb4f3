// json.Unmarshal into the record shapes of tokens, attestations and log entries: every field is taken from the member
// that bears its name. What is written is read back, so the readers that the theorems about tokens ask for exist.
module RecordReader {
  import opened Attest
  import opened Base64
  import opened Basics
  import opened Json
  import opened JsonReader
  import Missions
  import opened Tokens

  function HeaderOf(v: Value): Option<Header> {
    var alg :- TextAt(v, "alg");
    var typ :- TextAt(v, "typ");
    var kid :- TextAt(v, "kid");
    Some(Header(alg, typ, kid))
  }

  function JwkOf(v: Value): Option<JWK> {
    var kty :- TextAt(v, "kty");
    var crv :- TextAt(v, "crv");
    var x :- TextAt(v, "x");
    Some(JWK(kty, crv, x))
  }

  function MissionOf(v: Value): Option<MissionRef> {
    var approver :- TextAt(v, "approver");
    var s256 :- TextAt(v, "s256");
    Some(MissionRef(approver, s256))
  }

  function StepUpOf(v: Value): Option<StepUp> {
    var digest :- TextAt(v, "digest");
    var sig :- TextAt(v, "sig");
    Some(StepUp(digest, sig))
  }

  function VouchedOf(v: Value): Option<Vouched> {
    var value :- TextAt(v, "value");
    var provenance :- TextAt(v, "provenance");
    Some(Vouched(value, provenance))
  }

  /** A pointer field: nil where the member is missing or null. */
  function PointerAt<T>(v: Value, key: string, read: Value -> Option<T>): Option<Option<T>> {
    match Get(v, key)
    case None => Some(None)
    case Some(Null) => Some(None)
    case Some(w) =>
      var x :- read(w);
      Some(Some(x))
  }

  /** The key inside `cnf`. */
  function ConfirmedKey(v: Value): Option<JWK> {
    var cnf :- Get(v, "cnf");
    var jwk :- Get(cnf, "jwk");
    JwkOf(jwk)
  }

  function ClaimsOf(v: Value): Option<AuthClaims> {
    var iss :- TextAt(v, "iss");
    var dwk :- TextAt(v, "dwk");
    var aud :- TextAt(v, "aud");
    var jti :- TextAt(v, "jti");
    var agent :- TextAt(v, "agent");
    var cnf :- ConfirmedKey(v);
    var iat :- NumberAt(v, "iat");
    var exp :- NumberAt(v, "exp");
    var sub :- TextAt(v, "sub");
    var mission :- PointerAt(v, "mission", MissionOf);
    var psa :- TextAt(v, "psa");
    var agS256 :- TextAt(v, "ag_s256");
    var stepUp :- PointerAt(v, "step_up", StepUpOf);
    var name :- PointerAt(v, "name", VouchedOf);
    var email :- PointerAt(v, "email", VouchedOf);
    var kyc :- PointerAt(v, "kyc", VouchedOf);
    Some(AuthClaims(iss, dwk, aud, jti, agent, cnf, iat, exp, sub, mission, psa, agS256, stepUp, name, email, kyc))
  }

  function ResourceClaimsOf(v: Value): Option<ResourceClaims> {
    var iss :- TextAt(v, "iss");
    var jti :- TextAt(v, "jti");
    var iat :- NumberAt(v, "iat");
    var exp :- NumberAt(v, "exp");
    var scope :- TextsAt(v, "scope");
    var amount :- TextAt(v, "amount");
    Some(ResourceClaims(iss, jti, iat, exp, scope, amount))
  }

  // ---------------------------------------------------------------- where the members are

  lemma FindsThree(k1: string, v1: Value, k2: string, v2: Value, k3: string, v3: Value, rest: Members, key: string)
    ensures Find(Member(k1, v1, Member(k2, v2, Member(k3, v3, rest))), key) ==
      if key == k1 then Some(v1) else if key == k2 then Some(v2) else if key == k3 then Some(v3) else Find(rest, key)
  {
    assert Find(Member(k2, v2, Member(k3, v3, rest)), key) ==
      if key == k2 then Some(v2) else if key == k3 then Some(v3) else Find(rest, key);
  }

  lemma FindsOptional(k: string, v: Option<Value>, rest: Members, key: string)
    ensures Find(Omitempty(k, v, rest), key) == if key == k && v.Some? then v else Find(rest, key)
  {
  }

  lemma ThreeTextsAreRead(k1: string, s1: string, k2: string, s2: string, k3: string, s3: string)
    requires k1 != k2 && k1 != k3 && k2 != k3
    ensures var v := Obj(Member(k1, Str(s1), Member(k2, Str(s2), Member(k3, Str(s3), NoMembers))));
      TextAt(v, k1) == Some(s1) && TextAt(v, k2) == Some(s2) && TextAt(v, k3) == Some(s3)
  {
    FindsThree(k1, Str(s1), k2, Str(s2), k3, Str(s3), NoMembers, k1);
    FindsThree(k1, Str(s1), k2, Str(s2), k3, Str(s3), NoMembers, k2);
    FindsThree(k1, Str(s1), k2, Str(s2), k3, Str(s3), NoMembers, k3);
  }

  lemma TwoTextsAreRead(k1: string, s1: string, k2: string, s2: string)
    requires k1 != k2
    ensures var v := Obj(Member(k1, Str(s1), Member(k2, Str(s2), NoMembers)));
      TextAt(v, k1) == Some(s1) && TextAt(v, k2) == Some(s2)
  {
    assert Find(Member(k1, Str(s1), Member(k2, Str(s2), NoMembers)), k2) == Find(Member(k2, Str(s2), NoMembers), k2);
  }

  lemma HeaderIsRead(h: Header)
    ensures HeaderOf(HeaderJson(h)) == Some(h)
  {
    ThreeTextsAreRead("alg", h.alg, "typ", h.typ, "kid", h.kid);
  }

  lemma JwkIsRead(k: JWK)
    ensures JwkOf(JwkJson(k)) == Some(k)
  {
    ThreeTextsAreRead("kty", k.kty, "crv", k.crv, "x", k.x);
  }

  lemma MissionIsRead(m: MissionRef)
    ensures MissionOf(MissionJson(m)) == Some(m)
  {
    TwoTextsAreRead("approver", m.approver, "s256", m.s256);
  }

  lemma StepUpIsRead(s: StepUp)
    ensures StepUpOf(StepUpJson(s)) == Some(s)
  {
    TwoTextsAreRead("digest", s.digest, "sig", s.sig);
  }

  lemma VouchedIsRead(v: Vouched)
    ensures VouchedOf(VouchedJson(v)) == Some(v)
  {
    TwoTextsAreRead("value", v.value, "provenance", v.provenance);
  }

  /** Every claim is written under its own name, and the optional ones only where they are set. */
  function MemberOf(a: AuthClaims, key: string): Option<Value> {
    match key
    case "iss" => Some(Str(a.iss))
    case "dwk" => Some(Str(a.dwk))
    case "aud" => Some(Str(a.aud))
    case "jti" => Some(Str(a.jti))
    case "agent" => Some(Str(a.agent))
    case "cnf" => Some(Obj(Member("jwk", JwkJson(a.cnf), NoMembers)))
    case "iat" => Some(Num(a.iat))
    case "exp" => Some(Num(a.exp))
    case "sub" => Some(Str(a.sub))
    case _ => OptionalMemberOf(a, key)
  }

  function OptionalMemberOf(a: AuthClaims, key: string): Option<Value> {
    match key
    case "mission" => MapJson(a.mission, MissionJson)
    case "psa" => TextOrNone(a.psa)
    case "ag_s256" => TextOrNone(a.agS256)
    case "step_up" => MapJson(a.stepUp, StepUpJson)
    case "name" => MapJson(a.name, VouchedJson)
    case "email" => MapJson(a.email, VouchedJson)
    case "kyc" => MapJson(a.kyc, VouchedJson)
    case _ => None
  }

  lemma ExtensionIsNamed(a: AuthClaims, key: string)
    ensures Find(ExtensionMembers(a), key) == OptionalMemberOf(a, key)
  {
    var m6 := Omitempty("kyc", MapJson(a.kyc, VouchedJson), NoMembers);
    var m5 := Omitempty("email", MapJson(a.email, VouchedJson), m6);
    var m4 := Omitempty("name", MapJson(a.name, VouchedJson), m5);
    var m3 := Omitempty("step_up", MapJson(a.stepUp, StepUpJson), m4);
    var m2 := Omitempty("ag_s256", TextOrNone(a.agS256), m3);
    var m1 := Omitempty("psa", TextOrNone(a.psa), m2);
    FindsOptional("kyc", MapJson(a.kyc, VouchedJson), NoMembers, key);
    FindsOptional("email", MapJson(a.email, VouchedJson), m6, key);
    FindsOptional("name", MapJson(a.name, VouchedJson), m5, key);
    FindsOptional("step_up", MapJson(a.stepUp, StepUpJson), m4, key);
    FindsOptional("ag_s256", TextOrNone(a.agS256), m3, key);
    FindsOptional("psa", TextOrNone(a.psa), m2, key);
    FindsOptional("mission", MapJson(a.mission, MissionJson), m1, key);
  }

  lemma ClaimsAreNamed(a: AuthClaims, key: string)
    ensures Get(ClaimsJson(a), key) == MemberOf(a, key)
  {
    var cnf := Obj(Member("jwk", JwkJson(a.cnf), NoMembers));
    var last := Member("iat", Num(a.iat), Member("exp", Num(a.exp), Member("sub", Str(a.sub), ExtensionMembers(a))));
    var middle := Member("jti", Str(a.jti), Member("agent", Str(a.agent), Member("cnf", cnf, last)));
    FindsThree("iat", Num(a.iat), "exp", Num(a.exp), "sub", Str(a.sub), ExtensionMembers(a), key);
    FindsThree("jti", Str(a.jti), "agent", Str(a.agent), "cnf", cnf, last, key);
    FindsThree("iss", Str(a.iss), "dwk", Str(a.dwk), "aud", Str(a.aud), middle, key);
    ExtensionIsNamed(a, key);
  }

  lemma PointerIsRead<T>(v: Value, key: string, x: Option<T>, json: T -> Value, read: Value -> Option<T>)
    requires Get(v, key) == MapJson(x, json)
    requires x.Some? ==> read(json(x.value)) == x && !json(x.value).Null?
    ensures PointerAt(v, key, read) == Some(x)
  {
  }

  lemma TextIsRead(v: Value, key: string, s: string)
    requires Get(v, key) == Some(Str(s)) || Get(v, key) == TextOrNone(s)
    ensures TextAt(v, key) == Some(s)
  {
  }

  lemma RequiredTextsAreRead(a: AuthClaims)
    ensures var v := ClaimsJson(a);
      && TextAt(v, "iss") == Some(a.iss) && TextAt(v, "dwk") == Some(a.dwk) && TextAt(v, "aud") == Some(a.aud)
      && TextAt(v, "jti") == Some(a.jti) && TextAt(v, "agent") == Some(a.agent) && TextAt(v, "sub") == Some(a.sub)
  {
    ClaimsAreNamed(a, "iss");
    ClaimsAreNamed(a, "dwk");
    ClaimsAreNamed(a, "aud");
    ClaimsAreNamed(a, "jti");
    ClaimsAreNamed(a, "agent");
    ClaimsAreNamed(a, "sub");
  }

  lemma KeyAndTimesAreRead(a: AuthClaims)
    ensures var v := ClaimsJson(a);
      ConfirmedKey(v) == Some(a.cnf) && NumberAt(v, "iat") == Some(a.iat) && NumberAt(v, "exp") == Some(a.exp)
  {
    ClaimsAreNamed(a, "cnf");
    ClaimsAreNamed(a, "iat");
    ClaimsAreNamed(a, "exp");
    JwkIsRead(a.cnf);
  }

  lemma VouchedIsPointed(a: AuthClaims, key: string, x: Option<Vouched>)
    requires Get(ClaimsJson(a), key) == MapJson(x, VouchedJson)
    ensures PointerAt(ClaimsJson(a), key, VouchedOf) == Some(x)
  {
    if x.Some? {
      VouchedIsRead(x.value);
    }
    PointerIsRead(ClaimsJson(a), key, x, VouchedJson, VouchedOf);
  }

  lemma IdentityIsRead(a: AuthClaims)
    ensures var v := ClaimsJson(a);
      && PointerAt(v, "name", VouchedOf) == Some(a.name) && PointerAt(v, "email", VouchedOf) == Some(a.email)
      && PointerAt(v, "kyc", VouchedOf) == Some(a.kyc)
  {
    ClaimsAreNamed(a, "name");
    ClaimsAreNamed(a, "email");
    ClaimsAreNamed(a, "kyc");
    VouchedIsPointed(a, "name", a.name);
    VouchedIsPointed(a, "email", a.email);
    VouchedIsPointed(a, "kyc", a.kyc);
  }

  lemma ApprovalIsRead(a: AuthClaims)
    ensures var v := ClaimsJson(a);
      PointerAt(v, "mission", MissionOf) == Some(a.mission) && PointerAt(v, "step_up", StepUpOf) == Some(a.stepUp)
  {
    ClaimsAreNamed(a, "mission");
    ClaimsAreNamed(a, "step_up");
    if a.mission.Some? {
      MissionIsRead(a.mission.value);
    }
    if a.stepUp.Some? {
      StepUpIsRead(a.stepUp.value);
    }
    PointerIsRead(ClaimsJson(a), "mission", a.mission, MissionJson, MissionOf);
    PointerIsRead(ClaimsJson(a), "step_up", a.stepUp, StepUpJson, StepUpOf);
  }

  lemma ClaimsAreRead(a: AuthClaims)
    ensures ClaimsOf(ClaimsJson(a)) == Some(a)
  {
    RequiredTextsAreRead(a);
    KeyAndTimesAreRead(a);
    IdentityIsRead(a);
    ApprovalIsRead(a);
    ClaimsAreNamed(a, "psa");
    ClaimsAreNamed(a, "ag_s256");
    TextIsRead(ClaimsJson(a), "psa", a.psa);
    TextIsRead(ClaimsJson(a), "ag_s256", a.agS256);
  }

  function ResourceMemberOf(r: ResourceClaims, key: string): Option<Value> {
    match key
    case "iss" => Some(Str(r.iss))
    case "jti" => Some(Str(r.jti))
    case "iat" => Some(Num(r.iat))
    case "exp" => Some(Num(r.exp))
    case "scope" => Some(Strings(r.scope))
    case "amount" => TextOrNone(r.amountWei)
    case _ => None
  }

  lemma ResourceIsNamed(r: ResourceClaims, key: string)
    ensures Get(ResourceJson(r), key) == ResourceMemberOf(r, key)
  {
    var amount := Omitempty("amount", TextOrNone(r.amountWei), NoMembers);
    var scope := Member("scope", Strings(r.scope), amount);
    FindsOptional("amount", TextOrNone(r.amountWei), NoMembers, key);
    FindsThree("iss", Str(r.iss), "jti", Str(r.jti), "iat", Num(r.iat), Member("exp", Num(r.exp), scope), key);
    assert Find(Member("exp", Num(r.exp), scope), key) == if key == "exp" then Some(Num(r.exp)) else Find(scope, key);
  }

  lemma ResourceClaimsAreRead(r: ResourceClaims)
    ensures ResourceClaimsOf(ResourceJson(r)) == Some(r)
  {
    var v := ResourceJson(r);
    ResourceIsNamed(r, "iss");
    ResourceIsNamed(r, "jti");
    ResourceIsNamed(r, "iat");
    ResourceIsNamed(r, "exp");
    ResourceIsNamed(r, "scope");
    ResourceIsNamed(r, "amount");
    ListIsRead(v, "scope", r.scope);
    TextIsRead(v, "amount", r.amountWei);
  }

  // ---------------------------------------------------------------- attestations

  /** A []byte: standard base64 with padding. */
  function BytesAt(v: Value, key: string): Option<Slice<byte>> {
    match Get(v, key)
    case None => Some(Nil)
    case Some(Null) => Some(Nil)
    case Some(Str(s)) =>
      var b :- DecodePadded(Standard, s);
      Some(Of(b))
    case _ => None
  }

  function CountAt(v: Value, key: string): Option<nat> {
    var n :- NumberAt(v, key);
    if n < 0 then None else Some(n)
  }

  function ScopeOf(v: Value): Option<Scope> {
    var limit :- NumberAt(v, "maxTokenTTLSeconds");
    var claims :- TextsAt(v, "allowedClaims");
    var cap :- TextAt(v, "paymentCapWei");
    var threshold :- TextAt(v, "stepUpAboveWei");
    Some(Scope(limit, claims, cap, threshold))
  }

  function PsaOf(v: Value): Option<PSA> {
    var root :- TextAt(v, "root");
    var issuer :- TextAt(v, "issuer");
    var thumbs :- TextsAt(v, "keyThumbprints");
    var scopeValue :- Get(v, "scope");
    var scope :- ScopeOf(scopeValue);
    var notBefore :- NumberAt(v, "notBefore");
    var notAfter :- NumberAt(v, "notAfter");
    var chain :- NumberAt(v, "registryChain");
    var registry :- TextAt(v, "registry");
    var nonce :- CountAt(v, "nonce");
    var signature :- BytesAt(v, "signature");
    Some(PSA(root, issuer, thumbs, scope, notBefore, notAfter, chain, registry, nonce, signature))
  }

  function GrantOf(v: Value): Option<AgentGrant> {
    var root :- TextAt(v, "root");
    var agent :- TextAt(v, "agentIdentifier");
    var thumb :- TextAt(v, "agentThumbprint");
    var pub :- TextAt(v, "agentPubKey");
    var mission :- TextAt(v, "missionScopeS256");
    var notBefore :- NumberAt(v, "notBefore");
    var notAfter :- NumberAt(v, "notAfter");
    var chain :- NumberAt(v, "registryChain");
    var registry :- TextAt(v, "registry");
    var nonce :- CountAt(v, "nonce");
    var signature :- BytesAt(v, "signature");
    Some(AgentGrant(root, agent, thumb, pub, mission, notBefore, notAfter, chain, registry, nonce, signature))
  }

  lemma BlobIsRead(v: Value, key: string, b: Slice<byte>)
    requires Get(v, key) == Some(Blob(b))
    ensures BytesAt(v, key) == Some(b)
  {
    if b.Of? {
      PaddedRoundTrip(Standard, b.elems);
    }
  }

  lemma ScopeIsRead(s: Scope)
    ensures ScopeOf(ScopeJson(s)) == Some(s)
  {
    var v := ScopeJson(s);
    ScopeIsNamed(s, "maxTokenTTLSeconds");
    ScopeIsNamed(s, "allowedClaims");
    ScopeIsNamed(s, "paymentCapWei");
    ScopeIsNamed(s, "stepUpAboveWei");
    ListIsRead(v, "allowedClaims", s.allowedClaims);
  }

  function ScopeMemberOf(s: Scope, key: string): Option<Value> {
    match key
    case "maxTokenTTLSeconds" => Some(Num(s.maxTokenTTLSeconds))
    case "allowedClaims" => Some(Strings(s.allowedClaims))
    case "paymentCapWei" => Some(Str(s.paymentCapWei))
    case "stepUpAboveWei" => Some(Str(s.stepUpAboveWei))
    case _ => None
  }

  lemma ScopeIsNamed(s: Scope, key: string)
    ensures Get(ScopeJson(s), key) == ScopeMemberOf(s, key)
  {
    var last := Member("stepUpAboveWei", Str(s.stepUpAboveWei), NoMembers);
    FindsThree("maxTokenTTLSeconds", Num(s.maxTokenTTLSeconds), "allowedClaims", Strings(s.allowedClaims),
      "paymentCapWei", Str(s.paymentCapWei), last, key);
  }

  /** What a PSA and a grant have in common, under the same names. */
  function HandleMemberOf(notBefore: int, notAfter: int, chain: int, registry: string, nonce: nat, sig: Slice<byte>,
                          key: string): Option<Value>
  {
    match key
    case "notBefore" => Some(Num(notBefore))
    case "notAfter" => Some(Num(notAfter))
    case "registryChain" => Some(Num(chain))
    case "registry" => Some(Str(registry))
    case "nonce" => Some(Num(nonce))
    case "signature" => Some(Blob(sig))
    case _ => None
  }

  lemma HandleIsNamed(notBefore: int, notAfter: int, chain: int, registry: string, nonce: nat, sig: Slice<byte>, key: string)
    ensures Find(Member("notBefore", Num(notBefore), Member("notAfter", Num(notAfter),
              Member("registryChain", Num(chain), Member("registry", Str(registry),
              Member("nonce", Num(nonce), Member("signature", Blob(sig), NoMembers)))))), key)
      == HandleMemberOf(notBefore, notAfter, chain, registry, nonce, sig, key)
  {
    var last := Member("registry", Str(registry), Member("nonce", Num(nonce), Member("signature", Blob(sig), NoMembers)));
    FindsThree("registry", Str(registry), "nonce", Num(nonce), "signature", Blob(sig), NoMembers, key);
    FindsThree("notBefore", Num(notBefore), "notAfter", Num(notAfter), "registryChain", Num(chain), last, key);
  }

  function PsaMemberOf(p: PSA, key: string): Option<Value> {
    match key
    case "root" => Some(Str(p.root))
    case "issuer" => Some(Str(p.issuer))
    case "keyThumbprints" => Some(Strings(p.keyThumbprints))
    case "scope" => Some(ScopeJson(p.scope))
    case _ => HandleMemberOf(p.notBefore, p.notAfter, p.registryChain, p.registry, p.nonce, p.signature, key)
  }

  lemma PsaIsNamed(p: PSA, key: string)
    ensures Get(PsaJson(p), key) == PsaMemberOf(p, key)
  {
    var last := Member("notBefore", Num(p.notBefore), Member("notAfter", Num(p.notAfter),
      Member("registryChain", Num(p.registryChain), Member("registry", Str(p.registry), Member("nonce", Num(p.nonce),
      Member("signature", Blob(p.signature), NoMembers))))));
    HandleIsNamed(p.notBefore, p.notAfter, p.registryChain, p.registry, p.nonce, p.signature, key);
    FindsThree("root", Str(p.root), "issuer", Str(p.issuer), "keyThumbprints", Strings(p.keyThumbprints),
      Member("scope", ScopeJson(p.scope), last), key);
    assert Find(Member("scope", ScopeJson(p.scope), last), key)
        == if key == "scope" then Some(ScopeJson(p.scope)) else Find(last, key);
  }

  function GrantMemberOf(g: AgentGrant, key: string): Option<Value> {
    match key
    case "root" => Some(Str(g.root))
    case "agentIdentifier" => Some(Str(g.agentIdentifier))
    case "agentThumbprint" => Some(Str(g.agentThumbprint))
    case "agentPubKey" => TextOrNone(g.agentPubKey)
    case "missionScopeS256" => Some(Str(g.missionScopeS256))
    case _ => HandleMemberOf(g.notBefore, g.notAfter, g.registryChain, g.registry, g.nonce, g.signature, key)
  }

  lemma GrantIsNamed(g: AgentGrant, key: string)
    ensures Get(GrantJson(g), key) == GrantMemberOf(g, key)
  {
    var last := Member("notBefore", Num(g.notBefore), Member("notAfter", Num(g.notAfter),
      Member("registryChain", Num(g.registryChain), Member("registry", Str(g.registry), Member("nonce", Num(g.nonce),
      Member("signature", Blob(g.signature), NoMembers))))));
    var mission := Member("missionScopeS256", Str(g.missionScopeS256), last);
    HandleIsNamed(g.notBefore, g.notAfter, g.registryChain, g.registry, g.nonce, g.signature, key);
    FindsThree("root", Str(g.root), "agentIdentifier", Str(g.agentIdentifier), "agentThumbprint", Str(g.agentThumbprint),
      OptionalText("agentPubKey", g.agentPubKey, mission), key);
    assert Find(mission, key) == if key == "missionScopeS256" then Some(Str(g.missionScopeS256)) else Find(last, key);
    assert Find(OptionalText("agentPubKey", g.agentPubKey, mission), key)
        == if key == "agentPubKey" && g.agentPubKey != "" then Some(Str(g.agentPubKey)) else Find(mission, key);
  }

  lemma PsaIsRead(p: PSA)
    ensures PsaOf(PsaJson(p)) == Some(p)
  {
    var v := PsaJson(p);
    PsaIsNamed(p, "root");
    PsaIsNamed(p, "issuer");
    PsaIsNamed(p, "keyThumbprints");
    PsaIsNamed(p, "scope");
    ListIsRead(v, "keyThumbprints", p.keyThumbprints);
    ScopeIsRead(p.scope);
    PsaHandleIsRead(p);
  }

  lemma PsaHandleIsRead(p: PSA)
    ensures var v := PsaJson(p);
      && NumberAt(v, "notBefore") == Some(p.notBefore) && NumberAt(v, "notAfter") == Some(p.notAfter)
      && NumberAt(v, "registryChain") == Some(p.registryChain) && TextAt(v, "registry") == Some(p.registry)
      && CountAt(v, "nonce") == Some(p.nonce) && BytesAt(v, "signature") == Some(p.signature)
  {
    PsaIsNamed(p, "notBefore");
    PsaIsNamed(p, "notAfter");
    PsaIsNamed(p, "registryChain");
    PsaIsNamed(p, "registry");
    PsaIsNamed(p, "nonce");
    PsaIsNamed(p, "signature");
    BlobIsRead(PsaJson(p), "signature", p.signature);
  }

  lemma GrantIsRead(g: AgentGrant)
    ensures GrantOf(GrantJson(g)) == Some(g)
  {
    GrantIsNamed(g, "root");
    GrantIsNamed(g, "agentIdentifier");
    GrantIsNamed(g, "agentThumbprint");
    GrantIsNamed(g, "agentPubKey");
    GrantIsNamed(g, "missionScopeS256");
    TextIsRead(GrantJson(g), "agentPubKey", g.agentPubKey);
    GrantHandleIsRead(g);
  }

  lemma GrantHandleIsRead(g: AgentGrant)
    ensures var v := GrantJson(g);
      && NumberAt(v, "notBefore") == Some(g.notBefore) && NumberAt(v, "notAfter") == Some(g.notAfter)
      && NumberAt(v, "registryChain") == Some(g.registryChain) && TextAt(v, "registry") == Some(g.registry)
      && CountAt(v, "nonce") == Some(g.nonce) && BytesAt(v, "signature") == Some(g.signature)
  {
    GrantIsNamed(g, "notBefore");
    GrantIsNamed(g, "notAfter");
    GrantIsNamed(g, "registryChain");
    GrantIsNamed(g, "registry");
    GrantIsNamed(g, "nonce");
    GrantIsNamed(g, "signature");
    BlobIsRead(GrantJson(g), "signature", g.signature);
  }

  /** What a log entry's hash is taken of: all of it but the hash, by name. */
  lemma HashedEntryIsRead(e: Missions.Entry)
    ensures Unmarshal(Missions.HashedText(e)).Some?
    ensures var v := Unmarshal(Missions.HashedText(e)).value;
      && TextAt(v, "Kind") == Some(e.kind) && TextAt(v, "RequestID") == Some(e.requestID)
      && TextAt(v, "Prev") == Some(e.prev) && TextAt(v, "At") == Some(e.at)
  {
    var at := Member("At", Str(e.at), NoMembers);
    var v := Obj(Member("Kind", Str(e.kind), Member("RequestID", Str(e.requestID), Member("Prev", Str(e.prev), at))));
    UnmarshalInverts(v);
    FindsThree("Kind", Str(e.kind), "RequestID", Str(e.requestID), "Prev", Str(e.prev), at, "Kind");
    FindsThree("Kind", Str(e.kind), "RequestID", Str(e.requestID), "Prev", Str(e.prev), at, "RequestID");
    FindsThree("Kind", Str(e.kind), "RequestID", Str(e.requestID), "Prev", Str(e.prev), at, "Prev");
    FindsThree("Kind", Str(e.kind), "RequestID", Str(e.requestID), "Prev", Str(e.prev), at, "At");
  }

  // ---------------------------------------------------------------- from the bytes

  function ReadRecord<T>(b: Bytes, of: Value -> Option<T>): Option<T> {
    var v :- Unmarshal(b);
    of(v)
  }

  function Reading(): Codec {
    Codec(
      (b: Bytes) => ReadRecord(b, HeaderOf),
      (b: Bytes) => ReadRecord(b, ClaimsOf),
      (b: Bytes) => ReadRecord(b, ResourceClaimsOf))
  }

  /** Reading by name gives back every header, claim set and resource claim set that was written. */
  lemma ReadingInverts()
    ensures Inverts(Reading())
  {
    forall h
      ensures Reading().header(Marshal(HeaderJson(h))) == Some(h)
    {
      UnmarshalInverts(HeaderJson(h));
      HeaderIsRead(h);
    }
    forall a
      ensures Reading().claims(Marshal(ClaimsJson(a))) == Some(a)
    {
      UnmarshalInverts(ClaimsJson(a));
      ClaimsAreRead(a);
    }
    forall r
      ensures Reading().resource(Marshal(ResourceJson(r))) == Some(r)
    {
      UnmarshalInverts(ResourceJson(r));
      ResourceClaimsAreRead(r);
    }
  }
}
