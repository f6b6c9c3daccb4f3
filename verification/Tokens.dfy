// internal/tokens, minting side: claim shapes, the payment envelope, the time limit, and compact serialization.
module Tokens {
  import opened Attest
  import opened Base64
  import opened Basics
  import Consent
  import opened Crypto
  import Json
  import opened Text

  datatype JWK = JWK(kty: string, crv: string, x: string)

  function ThumbprintInput(c: Primitives, k: JWK): Bytes {
    Utf8("{\"crv\":" + (c.quote(k.crv) + (",\"kty\":" + (c.quote(k.kty) + (",\"x\":" + (c.quote(k.x) + "}"))))))
  }

  /** RFC 7638 for an OKP key: the hash of its canonical member text. */
  function Thumbprint(c: Primitives, k: JWK): string {
    Encode(UrlSafe, c.sha256(ThumbprintInput(c, k)))
  }

  /** Where a quoted text ends is visible, and what it quotes. */
  ghost predicate Readable(quote: string -> string) {
    forall s, t, x, y :: quote(s) + x == quote(t) + y ==> s == t && x == y
  }

  /** Two keys with one thumbprint are one key, member by member, or their texts collide under SHA-256. */
  lemma ThumbprintPins(c: Primitives, j: JWK, k: JWK)
    requires Readable(c.quote) && Thumbprint(c, j) == Thumbprint(c, k)
    ensures j == k || Collision(c.sha256, {ThumbprintInput(c, j)}, {ThumbprintInput(c, k)})
  {
    var x, y := ThumbprintInput(c, j), ThumbprintInput(c, k);
    RoundTrip(UrlSafe, c.sha256(x));
    RoundTrip(UrlSafe, c.sha256(y));
    SameHash(c.sha256, {x}, {y}, x, y);
    if x == y {
      var crv, kty := "{\"crv\":", ",\"kty\":";
      var afterKty, afterKty' := ",\"x\":" + (c.quote(j.x) + "}"), ",\"x\":" + (c.quote(k.x) + "}");
      var afterCrv, afterCrv' := kty + (c.quote(j.kty) + afterKty), kty + (c.quote(k.kty) + afterKty');
      Utf8Injective(crv + (c.quote(j.crv) + afterCrv), crv + (c.quote(k.crv) + afterCrv'));
      SameTail(crv, c.quote(j.crv) + afterCrv, c.quote(k.crv) + afterCrv');
      SameTail(kty, c.quote(j.kty) + afterKty, c.quote(k.kty) + afterKty');
      SameTail(",\"x\":", c.quote(j.x) + "}", c.quote(k.x) + "}");
    }
  }

  lemma SameTail(a: string, x: string, y: string)
    requires a + x == a + y
    ensures x == y
  {
    assert x == (a + x)[|a|..] == (a + y)[|a|..] == y;
  }

  /** Where quoting adds quotation marks only, the hashed text is the one that RFC 7638 prescribes (section 3.2). */
  lemma ThumbprintIsCanonical(c: Primitives, k: JWK)
    requires c.quote(k.crv) == "\"" + k.crv + "\"" && c.quote(k.kty) == "\"" + k.kty + "\""
    requires c.quote(k.x) == "\"" + k.x + "\""
    ensures Thumbprint(c, k) == Encode(UrlSafe, c.sha256(Utf8(
              "{\"crv\":\"" + k.crv + "\",\"kty\":\"" + k.kty + "\",\"x\":\"" + k.x + "\"}")))
  {
    var x := ",\"x\":" + (c.quote(k.x) + "}");
    var kty := ",\"kty\":" + (c.quote(k.kty) + x);
    assert x == ",\"x\":\"" + k.x + "\"}";
    assert kty == ",\"kty\":\"" + k.kty + "\"" + x;
    assert "{\"crv\":" + (c.quote(k.crv) + kty)
        == "{\"crv\":\"" + k.crv + "\",\"kty\":\"" + k.kty + "\",\"x\":\"" + k.x + "\"}";
  }

  lemma {:induction false} BodyThen(s: string, rest: string)
    ensures Json.WriteBody(s, rest) == Json.WriteBody(s, "") + rest
  {
    if s != "" {
      BodyThen(s[1..], rest);
      var first := Json.Escape(s[0]);
      assert first + (Json.WriteBody(s[1..], "") + rest) == first + Json.WriteBody(s[1..], "") + rest;
    } else {
      assert "\"" + rest == ("\"" + "") + rest;
    }
  }

  lemma StringThen(s: string, rest: string)
    ensures Json.WriteString(s, rest) == Json.WriteString(s, "") + rest
  {
    BodyThen(s, rest);
  }

  /** Quoting as JSON does is one readable way. */
  lemma JsonQuotingIsReadable(quote: string -> string)
    requires forall s :: quote(s) == Json.WriteString(s, "")
    ensures Readable(quote)
  {
    forall s, t, x, y | quote(s) + x == quote(t) + y
      ensures s == t && x == y
    {
      StringThen(s, x);
      StringThen(t, y);
      Json.StringPrefixFree(s, t, x, y);
    }
  }

  /** Every key with this thumbprint is this key, or collides with it. */
  ghost predicate OnlyKey(c: Primitives, key: JWK, thumb: string) {
    forall k :: Thumbprint(c, k) == thumb ==>
      k == key || Collision(c.sha256, {ThumbprintInput(c, k)}, {ThumbprintInput(c, key)})
  }

  lemma ThumbprintNamesKey(c: Primitives, key: JWK)
    requires Readable(c.quote)
    ensures OnlyKey(c, key, Thumbprint(c, key))
  {
    forall k | Thumbprint(c, k) == Thumbprint(c, key)
      ensures k == key || Collision(c.sha256, {ThumbprintInput(c, k)}, {ThumbprintInput(c, key)})
    {
      ThumbprintPins(c, k, key);
    }
  }

  datatype MissionRef = MissionRef(approver: string, s256: string)

  datatype StepUp = StepUp(digest: string, sig: string)

  datatype Vouched = Vouched(value: string, provenance: string)

  datatype Header = Header(alg: string, typ: string, kid: string)

  datatype AuthClaims = AuthClaims(
    iss: string,
    dwk: string,
    aud: string,
    jti: string,
    agent: string,
    cnf: JWK,
    iat: int,
    exp: int,
    sub: string,
    mission: Option<MissionRef>,
    psa: string,
    agS256: string,
    stepUp: Option<StepUp>,
    name: Option<Vouched>,
    email: Option<Vouched>,
    kyc: Option<Vouched>
  )

  datatype ResourceClaims = ResourceClaims(
    iss: string,
    jti: string,
    iat: int,
    exp: int,
    scope: Slice<string>,
    amountWei: string
  )

  // ---------------------------------------------------------------- payment envelope and consent tier

  /** A decimal amount; empty and malformed texts count as zero. */
  function BigOrZero(s: string): int {
    match SetString(s, 10)
    case Some(n) => n
    case None => 0
  }

  datatype MintError =
    | KeyNotCovered
    | ClaimNotAllowed
    | BadAmount
    | OverCap
    | StepUpRequired

  predicate AboveThreshold(s: Scope, amount: int) {
    var threshold := BigOrZero(s.stepUpAboveWei);
    threshold > 0 && amount > threshold
  }

  function CheckPaymentEnvelope(s: Scope, amountWei: string, hasStepUp: bool): Option<MintError> {
    if amountWei == "" then None
    else
      match SetString(amountWei, 10)
      case None => Some(BadAmount)
      case Some(amount) =>
        var cap := BigOrZero(s.paymentCapWei);
        if cap == 0 || amount > cap then Some(OverCap)
        else if AboveThreshold(s, amount) && !hasStepUp then Some(StepUpRequired)
        else None
  }

  function TierFor(s: Scope, amountWei: string): Consent.Tier {
    if amountWei == "" then Consent.Routine
    else if AboveThreshold(s, BigOrZero(amountWei)) then Consent.Elevated
    else Consent.Routine
  }

  /** The number in a decimal text; an empty or malformed one counts as zero. */
  ghost predicate Counts(s: string, n: int) {
    SetString(s, 10) == Some(n) || (SetString(s, 10).None? && n == 0)
  }

  /** On numbers: a payment is elevated exactly if there is a threshold and it is above it. */
  lemma TierExactly(s: Scope, amountWei: string, amount: int, threshold: int)
    requires Counts(amountWei, amount) && Counts(s.stepUpAboveWei, threshold)
    ensures TierFor(s, amountWei) == Consent.Elevated <==> 0 < threshold < amount
  {
  }

  /** On numbers: exactly which payments pass, and what is wrong with the others. */
  lemma EnvelopeExactly(s: Scope, amountWei: string, hasStepUp: bool, amount: int, threshold: int, cap: int)
    requires Counts(amountWei, amount) && Counts(s.stepUpAboveWei, threshold) && Counts(s.paymentCapWei, cap)
    ensures CheckPaymentEnvelope(s, amountWei, hasStepUp) ==
      if amountWei == "" then None
      else if SetString(amountWei, 10).None? then Some(BadAmount)
      else if cap == 0 || cap < amount then Some(OverCap)
      else if 0 < threshold < amount && !hasStepUp then Some(StepUpRequired)
      else None
  {
  }

  /** The same where all three are written out as natural numbers. */
  lemma DecimalEnvelope(s: Scope, amount: nat, threshold: nat, cap: nat, hasStepUp: bool)
    requires s.stepUpAboveWei == ShowNat(threshold) && s.paymentCapWei == ShowNat(cap)
    ensures TierFor(s, ShowNat(amount)) == Consent.Elevated <==> 0 < threshold < amount
    ensures CheckPaymentEnvelope(s, ShowNat(amount), hasStepUp).None? <==>
      0 < cap && amount <= cap && (threshold == 0 || amount <= threshold || hasStepUp)
  {
    SetStringOfShowInt(amount);
    SetStringOfShowInt(threshold);
    SetStringOfShowInt(cap);
  }

  /**
   * The tier and the envelope draw one line: an amount within a cap that is not zero is refused without a
   * step-up exactly when it is in the elevated tier, and with a step-up it never is.
   */
  lemma TierAgreesWithEnvelope(s: Scope, amountWei: string)
    requires SetString(amountWei, 10).Some?
    requires BigOrZero(s.paymentCapWei) != 0 && BigOrZero(amountWei) <= BigOrZero(s.paymentCapWei)
    ensures CheckPaymentEnvelope(s, amountWei, false).Some? <==> TierFor(s, amountWei) == Consent.Elevated
    ensures CheckPaymentEnvelope(s, amountWei, false) in {None, Some(StepUpRequired)}
    ensures CheckPaymentEnvelope(s, amountWei, true).None?
    ensures TierFor(s, amountWei) == Consent.Elevated <==>
      SetString(s.stepUpAboveWei, 10).Some? && 0 < SetString(s.stepUpAboveWei, 10).value < SetString(amountWei, 10).value
  {
  }

  /** A smaller amount is never refused where a larger one passes. */
  lemma EnvelopeDownwardClosed(s: Scope, amountWei: string, lessWei: string, hasStepUp: bool)
    requires CheckPaymentEnvelope(s, amountWei, hasStepUp).None? && amountWei != ""
    requires SetString(lessWei, 10).Some? && BigOrZero(lessWei) <= BigOrZero(amountWei)
    ensures CheckPaymentEnvelope(s, lessWei, hasStepUp).None?
  {
  }

  // ---------------------------------------------------------------- time limit

  const TWO_63: int := 0x8000_0000_0000_0000

  /** The int64 that a Go expression over int64 yields for the mathematical value x. */
  function Int64(x: int): int {
    (x + TWO_63) % (2 * TWO_63) - TWO_63
  }

  const HOUR: int := 3600 * NANOS_PER_SECOND

  /** The requested duration, clamped to the PSA's limit and to an hour; durations are nanoseconds. */
  function ClampTTL(ttl: int, maxSeconds: int): int {
    var limit := Int64(maxSeconds * NANOS_PER_SECOND);
    var t := if ttl > limit then limit else ttl;
    if t > HOUR then HOUR else t
  }

  /** Which int64 that is: the one that differs by whole turns. */
  lemma Int64Exactly(x: int)
    ensures -TWO_63 <= Int64(x) < TWO_63
    ensures exists turns :: x == Int64(x) + turns * 0x1_0000_0000_0000_0000
  {
    var turns := (x + TWO_63) / (2 * TWO_63);
    assert x == Int64(x) + turns * 0x1_0000_0000_0000_0000;
  }

  lemma Int64Keeps(x: int)
    requires -0x8000_0000_0000_0000 <= x < 0x8000_0000_0000_0000
    ensures Int64(x) == x
  {
  }

  /** A token lives for the least of the request, the PSA's limit and an hour, in whole seconds, as long as none wraps. */
  lemma LifetimeExactly(now: int, seconds: int, maxSeconds: int)
    requires -0x8000_0000_0000_0000 <= maxSeconds * NANOS_PER_SECOND < 0x8000_0000_0000_0000
    ensures var lifetime := Unix(now + ClampTTL(seconds * NANOS_PER_SECOND, maxSeconds)) - Unix(now);
      && lifetime in {seconds, maxSeconds, 3600}
      && lifetime <= seconds && lifetime <= maxSeconds && lifetime <= 3600
  {
    Int64Keeps(maxSeconds * NANOS_PER_SECOND);
    UnixAfter(now, seconds * NANOS_PER_SECOND, seconds);
    UnixAfter(now, maxSeconds * NANOS_PER_SECOND, maxSeconds);
    UnixAfter(now, HOUR, 3600);
  }

  /** The limit in nanoseconds did not wrap upwards, or is an hour or more. */
  predicate LimitHolds(maxSeconds: int) {
    Int64(maxSeconds * NANOS_PER_SECOND) <= maxSeconds * NANOS_PER_SECOND || HOUR <= maxSeconds * NANOS_PER_SECOND
  }

  /** The whole second that an instant is in. */
  lemma UnixIsFloor(nanos: int)
    ensures Unix(nanos) * 1_000_000_000 <= nanos < (Unix(nanos) + 1) * 1_000_000_000
  {
  }

  lemma UnixAfter(now: int, t: int, seconds: int)
    ensures t <= seconds * NANOS_PER_SECOND ==> Unix(now + t) - Unix(now) <= seconds
    ensures t == seconds * NANOS_PER_SECOND ==> Unix(now + t) - Unix(now) == seconds
    ensures Unix(0 + t) <= seconds <==> t < (seconds + 1) * NANOS_PER_SECOND
  {
  }

  /**
   * No token outlives an hour, nor the PSA's limit where that holds, as it does for every limit that is not negative,
   * even one that wraps around; and a whole-second request under both is met exactly.
   */
  lemma LifetimeBounded(now: int, ttl: int, maxSeconds: int)
    ensures var lifetime := Unix(now + ClampTTL(ttl, maxSeconds)) - Unix(now);
      && (LimitHolds(maxSeconds) ==> lifetime <= maxSeconds)
      && lifetime <= 3600
      && (ttl % NANOS_PER_SECOND == 0 && ttl <= HOUR && ttl <= maxSeconds * NANOS_PER_SECOND < TWO_63
            && -TWO_63 <= maxSeconds * NANOS_PER_SECOND ==>
            lifetime == ttl / NANOS_PER_SECOND)
    ensures maxSeconds >= 0 ==> LimitHolds(maxSeconds)
  {
    UnixAfter(now, ClampTTL(ttl, maxSeconds), maxSeconds);
  }

  /** Exactly which limits are respected by every request at every instant: those that hold. */
  lemma LimitRespectedExactly(maxSeconds: int)
    ensures (forall now, ttl :: Unix(now + ClampTTL(ttl, maxSeconds)) - Unix(now) <= maxSeconds)
       <==> LimitHolds(maxSeconds)
  {
    if LimitHolds(maxSeconds) {
      forall now, ttl
        ensures Unix(now + ClampTTL(ttl, maxSeconds)) - Unix(now) <= maxSeconds
      {
        LifetimeBounded(now, ttl, maxSeconds);
      }
    } else {
      LongerThanLimit(maxSeconds);
    }
  }

  /** Where the limit does not hold, an hour's request at the epoch outlives it. */
  lemma LongerThanLimit(maxSeconds: int)
    requires !LimitHolds(maxSeconds)
    ensures Unix(0 + ClampTTL(HOUR, maxSeconds)) - Unix(0) > maxSeconds
  {
    var t := ClampTTL(HOUR, maxSeconds);
    UnixAfter(0, t, maxSeconds);
    WrapsByWholeTurns(maxSeconds * NANOS_PER_SECOND);
  }

  /** A product that wraps upwards does so by at least one whole turn of an int64. */
  lemma WrapsByWholeTurns(x: int)
    ensures Int64(x) > x ==> Int64(x) >= x + 2 * TWO_63
  {
    var q := (x + TWO_63) / (2 * TWO_63);
    assert Int64(x) == x - q * (2 * TWO_63);
  }

  /** Such limits are an int64: this one wraps to a positive duration. No signed PSA carries a negative one. */
  lemma NegativeLimitWraps()
    ensures var limit := -18_446_744_073;
      -TWO_63 <= limit && !LimitHolds(limit) && Unix(0 + ClampTTL(HOUR, limit)) - Unix(0) > limit
  {
  }

  // ---------------------------------------------------------------- JSON forms

  function JwkJson(k: JWK): Json.Value {
    Json.Obj(Json.Member("kty", Json.Str(k.kty), Json.Member("crv", Json.Str(k.crv),
      Json.Member("x", Json.Str(k.x), Json.NoMembers))))
  }

  function HeaderJson(h: Header): Json.Value {
    Json.Obj(Json.Member("alg", Json.Str(h.alg), Json.Member("typ", Json.Str(h.typ),
      Json.Member("kid", Json.Str(h.kid), Json.NoMembers))))
  }

  function MissionJson(m: MissionRef): Json.Value {
    Json.Obj(Json.Member("approver", Json.Str(m.approver), Json.Member("s256", Json.Str(m.s256), Json.NoMembers)))
  }

  function StepUpJson(s: StepUp): Json.Value {
    Json.Obj(Json.Member("digest", Json.Str(s.digest), Json.Member("sig", Json.Str(s.sig), Json.NoMembers)))
  }

  function VouchedJson(v: Vouched): Json.Value {
    Json.Obj(Json.Member("value", Json.Str(v.value), Json.Member("provenance", Json.Str(v.provenance), Json.NoMembers)))
  }

  /** A member that is left out when it is empty. */
  function Omitempty(key: string, v: Option<Json.Value>, rest: Json.Members): Json.Members {
    match v
    case None => rest
    case Some(value) => Json.Member(key, value, rest)
  }

  function TextOrNone(s: string): Option<Json.Value> {
    if s == "" then None else Some(Json.Str(s))
  }

  function MapJson<T>(o: Option<T>, f: T -> Json.Value): Option<Json.Value> {
    match o
    case None => None
    case Some(x) => Some(f(x))
  }

  function ExtensionMembers(a: AuthClaims): Json.Members {
    Omitempty("mission", MapJson(a.mission, MissionJson),
    Omitempty("psa", TextOrNone(a.psa),
    Omitempty("ag_s256", TextOrNone(a.agS256),
    Omitempty("step_up", MapJson(a.stepUp, StepUpJson),
    Omitempty("name", MapJson(a.name, VouchedJson),
    Omitempty("email", MapJson(a.email, VouchedJson),
    Omitempty("kyc", MapJson(a.kyc, VouchedJson), Json.NoMembers)))))))
  }

  function ClaimsJson(a: AuthClaims): Json.Value {
    Json.Obj(
      Json.Member("iss", Json.Str(a.iss),
      Json.Member("dwk", Json.Str(a.dwk),
      Json.Member("aud", Json.Str(a.aud),
      Json.Member("jti", Json.Str(a.jti),
      Json.Member("agent", Json.Str(a.agent),
      Json.Member("cnf", Json.Obj(Json.Member("jwk", JwkJson(a.cnf), Json.NoMembers)),
      Json.Member("iat", Json.Num(a.iat),
      Json.Member("exp", Json.Num(a.exp),
      Json.Member("sub", Json.Str(a.sub), ExtensionMembers(a)))))))))))
  }

  function ResourceJson(r: ResourceClaims): Json.Value {
    Json.Obj(
      Json.Member("iss", Json.Str(r.iss),
      Json.Member("jti", Json.Str(r.jti),
      Json.Member("iat", Json.Num(r.iat),
      Json.Member("exp", Json.Num(r.exp),
      Json.Member("scope", Json.Strings(r.scope),
      Omitempty("amount", TextOrNone(r.amountWei), Json.NoMembers)))))))
  }

  /** json.Unmarshal into each record shape. How it treats texts that Marshal never writes is left open. */
  datatype Codec = Codec(
    header: Bytes -> Option<Header>,
    claims: Bytes -> Option<AuthClaims>,
    resource: Bytes -> Option<ResourceClaims>
  )

  /** Reading back what Marshal wrote. */
  ghost predicate Inverts(codec: Codec) {
    && (forall h :: codec.header(Json.Marshal(HeaderJson(h))) == Some(h))
    && (forall a :: codec.claims(Json.Marshal(ClaimsJson(a))) == Some(a))
    && (forall r :: codec.resource(Json.Marshal(ResourceJson(r))) == Some(r))
  }

  // ---------------------------------------------------------------- compact serialization

  datatype IssuerKey = IssuerKey(kid: string, sign: Bytes -> Bytes, pub: JWK)

  function Seg(b: Bytes): string {
    Encode(UrlSafe, b)
  }

  function Compact(header: Bytes, claims: Bytes, sig: Bytes): string {
    Seg(header) + "." + (Seg(claims) + "." + Seg(sig))
  }

  function SigningInput(header: string, claims: string): Bytes {
    Utf8(header + "." + claims)
  }

  function SignJWT(key: IssuerKey, typ: string, claims: Json.Value): string {
    var h := Json.Marshal(HeaderJson(Header("EdDSA", typ, key.kid)));
    var b := Json.Marshal(claims);
    Compact(h, b, key.sign(SigningInput(Seg(h), Seg(b))))
  }

  function Split3(raw: string): Option<(string, string, string)> {
    var parts := Split(raw, '.');
    if |parts| == 3 then Some((parts[0], parts[1], parts[2])) else None
  }

  lemma SplitAtFirst(s: string) returns (a: string, rest: string)
    requires '.' in s
    ensures s == a + (['.'] + rest) && '.' !in a && Split(s, '.') == [a] + Split(rest, '.')
  {
    var i := IndexOf(s, '.').value;
    a, rest := s[..i], s[i + 1..];
  }

  lemma TwoParts(s: string, b: string, c: string)
    requires Split(s, '.') == [b, c]
    ensures s == b + (['.'] + c) && '.' !in b && '.' !in c
  {
    var a, rest := SplitAtFirst(s);
    assert a == Split(s, '.')[0] && Split(rest, '.') == Split(s, '.')[1..] == [c];
    if '.' in rest {
      var x, y := SplitAtFirst(rest);
    }
  }

  lemma ThreeParts(raw: string, h: string, b: string, s: string)
    requires Split(raw, '.') == [h, b, s]
    ensures raw == h + (['.'] + (b + (['.'] + s))) && '.' !in h && '.' !in b && '.' !in s
  {
    var a, rest := SplitAtFirst(raw);
    assert a == Split(raw, '.')[0] && Split(rest, '.') == Split(raw, '.')[1..] == [b, s];
    TwoParts(rest, b, s);
  }

  lemma JoinedParts(h: string, b: string, s: string)
    requires '.' !in h && '.' !in b && '.' !in s
    ensures Split(h + (['.'] + (b + (['.'] + s))), '.') == [h, b, s]
  {
    var rest := b + ['.'] + s;
    assert rest == b + (['.'] + s) && h + (['.'] + rest) == h + ['.'] + rest;
    SplitFirst(h, '.', rest);
    SplitFirst(b, '.', s);
    assert Split(s, '.') == [s];
  }

  /** Three parts are the whole text, and none of them holds a dot. */
  lemma Split3Exactly(raw: string, h: string, b: string, s: string)
    ensures Split3(raw) == Some((h, b, s)) <==>
      raw == h + (['.'] + (b + (['.'] + s))) && '.' !in h && '.' !in b && '.' !in s
  {
    if Split3(raw) == Some((h, b, s)) {
      assert Split(raw, '.') == [h, b, s];
      ThreeParts(raw, h, b, s);
    }
    if raw == h + (['.'] + (b + (['.'] + s))) && '.' !in h && '.' !in b && '.' !in s {
      JoinedParts(h, b, s);
    }
  }

  /** The message tells both segments, as long as they hold no dots. */
  lemma SigningInputPins(h: string, b: string, h': string, b': string)
    requires SigningInput(h, b) == SigningInput(h', b')
    requires '.' !in h && '.' !in h' && '.' !in b && '.' !in b'
    ensures h == h' && b == b'
  {
    Utf8Injective(h + "." + b, h' + "." + b');
    assert h + "." + b == h + ['.'] + b && h' + "." + b' == h' + ['.'] + b';
    IndexOfFirst(h, '.', b);
    IndexOfFirst(h', '.', b');
    var s := h + ['.'] + b;
    assert h == s[..|h|] == s[..|h'|] == h';
    assert b == s[|h| + 1..] == b';
  }

  /** The place of the last dot in a compact token. */
  ghost predicate LastDot(raw: string, n: nat) {
    n < |raw| && raw[n] == '.' && '.' !in raw[n + 1..]
  }

  /** The last segment is a signature by this key over the bytes of the text before the last dot. */
  ghost predicate SignatureCovers(c: Primitives, pub: Bytes, raw: string) {
    exists n: nat :: LastDot(raw, n) &&
      var s := Decode(UrlSafe, raw[n + 1..]);
      s.Some? && c.ed25519Verify(pub, Utf8(raw[..n]), s.value)
  }

  lemma AfterLastDot(raw: string, n: nat, i: nat)
    requires LastDot(raw, n) && n < i < |raw|
    ensures raw[i] != '.'
  {
    assert raw[i] == raw[n + 1..][i - n - 1];
  }

  lemma LastDotIsOne(raw: string, m: nat, n: nat)
    requires LastDot(raw, m) && LastDot(raw, n)
    ensures m == n
  {
    if m < n {
      AfterLastDot(raw, m, n);
    } else if n < m {
      AfterLastDot(raw, n, m);
    }
  }

  lemma CoversAtLastDot(c: Primitives, pub: Bytes, raw: string, n: nat)
    requires LastDot(raw, n)
    ensures var s := Decode(UrlSafe, raw[n + 1..]);
      SignatureCovers(c, pub, raw) <==> s.Some? && c.ed25519Verify(pub, Utf8(raw[..n]), s.value)
  {
    forall m: nat | LastDot(raw, m)
      ensures m == n
    {
      LastDotIsOne(raw, m, n);
    }
  }

  lemma LastDotOf(h: string, b: string, s: string)
    requires '.' !in s
    ensures var raw := h + (['.'] + (b + (['.'] + s)));
      var n := |h| + 1 + |b|;
      LastDot(raw, n) && raw[..n] == h + "." + b && raw[n + 1..] == s
  {
    var raw, n := h + (['.'] + (b + (['.'] + s))), |h| + 1 + |b|;
    assert raw == (h + "." + b) + ['.'] + s;
    assert raw[n + 1..] == s && raw[..n] == h + "." + b;
  }

  lemma CompactIsWhole(header: Bytes, claims: Bytes, sig: Bytes)
    ensures var raw := Compact(header, claims, sig);
      exists n: nat :: LastDot(raw, n) && raw[n + 1..] == Seg(sig) && raw[..n] == Seg(header) + "." + Seg(claims)
  {
    NoDotInSegment(sig);
    LastDotOf(Seg(header), Seg(claims), Seg(sig));
    assert Compact(header, claims, sig) == Seg(header) + (['.'] + (Seg(claims) + (['.'] + Seg(sig))));
  }

  /** The token is its text and, behind a last dot, the key's signature over the bytes of that text. */
  ghost predicate SignedText(key: IssuerKey, raw: string, text: string) {
    exists n: nat :: LastDot(raw, n) && raw[..n] == text && raw[n + 1..] == Seg(key.sign(Utf8(text)))
  }

  /** What signing covers: both segments with the dot between them, and so all of the token but the signature. */
  lemma SignedTextIsWhole(key: IssuerKey, typ: string, claims: Json.Value)
    ensures SignedText(key, SignJWT(key, typ, claims),
              Seg(Json.Marshal(HeaderJson(Header("EdDSA", typ, key.kid)))) + "." + Seg(Json.Marshal(claims)))
  {
    SignedPairIsWhole(key, Json.Marshal(HeaderJson(Header("EdDSA", typ, key.kid))), Json.Marshal(claims));
  }

  lemma SignedPairIsWhole(key: IssuerKey, header: Bytes, claims: Bytes)
    ensures SignedText(key, Compact(header, claims, key.sign(SigningInput(Seg(header), Seg(claims)))),
              Seg(header) + "." + Seg(claims))
  {
    var sig := key.sign(SigningInput(Seg(header), Seg(claims)));
    CompactIsWhole(header, claims, sig);
    var raw := Compact(header, claims, sig);
    var n: nat :| LastDot(raw, n) && raw[n + 1..] == Seg(sig) && raw[..n] == Seg(header) + "." + Seg(claims);
    assert Utf8(raw[..n]) == SigningInput(Seg(header), Seg(claims));
  }

  lemma NoDotInSegment(b: Bytes)
    ensures '.' !in Seg(b)
  {
  }

  /** Splitting a compact token gives back its three segments, and decoding each gives back its bytes. */
  lemma CompactRoundTrip(header: Bytes, claims: Bytes, sig: Bytes)
    ensures Split3(Compact(header, claims, sig)) == Some((Seg(header), Seg(claims), Seg(sig)))
    ensures Decode(UrlSafe, Seg(header)) == Some(header)
    ensures Decode(UrlSafe, Seg(claims)) == Some(claims)
    ensures Decode(UrlSafe, Seg(sig)) == Some(sig)
  {
    NoDotInSegment(header);
    NoDotInSegment(claims);
    NoDotInSegment(sig);
    var rest := Seg(claims) + "." + Seg(sig);
    SplitFirst(Seg(header), '.', rest);
    SplitFirst(Seg(claims), '.', Seg(sig));
    assert Compact(header, claims, sig) == Seg(header) + ['.'] + rest;
    assert rest == Seg(claims) + ['.'] + Seg(sig);
    assert Split(Seg(sig), '.') == [Seg(sig)];
    RoundTrip(UrlSafe, header);
    RoundTrip(UrlSafe, claims);
    RoundTrip(UrlSafe, sig);
  }

  // ---------------------------------------------------------------- by-reference claims

  function Ref(url: string, hash: string): string {
    url + "#s256=" + hash
  }

  /** The URL before the first `#`, and the hash a `s256=` fragment pins; empty when there is none. */
  function SplitRef(ref: string): (string, string) {
    match IndexOf(ref, '#')
    case None => (ref, "")
    case Some(i) =>
      var fragment := ref[i + 1..];
      var eq := IndexOf(fragment, '=');
      (ref[..i], if eq.Some? && fragment[..eq.value] == "s256" then fragment[eq.value + 1..] else "")
  }

  lemma SplitRefInvertsRef(url: string, hash: string)
    requires '#' !in url
    ensures SplitRef(Ref(url, hash)) == (url, hash)
  {
    var fragment := "s256" + ['='] + hash;
    assert Ref(url, hash) == url + ['#'] + fragment;
    IndexOfFirst(url, '#', fragment);
    assert Ref(url, hash)[|url| + 1..] == fragment && Ref(url, hash)[..|url|] == url;
    IndexOfFirst("s256", '=', hash);
    assert fragment[..4] == "s256" && fragment[5..] == hash;
  }

  method SplitRefStepwise(ref: string) returns (url: string, s256: string)
    ensures (url, s256) == SplitRef(ref)
  {
    url := ref;
    s256 := "";
    var i := IndexOf(ref, '#');
    if i.Some? {
      url := ref[..i.value];
      var fragment := ref[i.value + 1..];
      var eq := IndexOf(fragment, '=');
      if eq.Some? && fragment[..eq.value] == "s256" {
        s256 := fragment[eq.value + 1..];
      }
    }
  }

  // ---------------------------------------------------------------- minting

  datatype MintInput = MintInput(
    psa: PSA,
    psaBlobURL: string,
    grant: AgentGrant,
    resource: ResourceClaims,
    agentID: string,
    agentKey: JWK,
    mission: Option<MissionRef>,
    stepUp: Option<StepUp>,
    claims: map<string, Vouched>,
    ttl: int
  )

  function Sub(chain: int, root: string): string {
    "eip155:" + ShowInt(chain) + ":" + root
  }

  function Claimed(m: map<string, Vouched>, name: string): Option<Vouched> {
    if name in m then Some(m[name]) else None
  }

  /** An account identifier of CAIP-10 with this chain and, up to casing, this address. */
  ghost predicate NamesRoot(sub: string, chain: int, root: string) {
    exists namespace, address ::
      && sub == namespace + (ShowInt(chain) + (":" + address))
      && SameLetters(namespace, "eip155:") && SameLetters(address, root)
  }

  /** No letters: only itself in another casing. */
  lemma CaselessIsItself(s: string, t: string)
    requires SameLetters(s, t) && forall ch <- t :: IsDecimalDigit(ch) || ch == '-' || ch == ':'
    ensures s == t
  {
    forall i | 0 <= i < |s|
      ensures s[i] == t[i]
    {
      assert t[i] in t && SameLetter(s[i], t[i]);
    }
  }

  lemma SplitLetters(s: string, a: string, b: string)
    requires SameLetters(s, a + b)
    ensures |s| == |a| + |b| && SameLetters(s[..|a|], a) && SameLetters(s[|a|..], b)
  {
    forall i | 0 <= i < |a|
      ensures SameLetter(s[..|a|][i], a[i])
    {
      assert SameLetter(s[i], (a + b)[i]);
    }
    forall i | 0 <= i < |b|
      ensures SameLetter(s[|a|..][i], b[i])
    {
      assert SameLetter(s[|a| + i], (a + b)[|a| + i]);
    }
  }

  lemma JoinLetters(s: string, t: string, a: string, b: string)
    requires SameLetters(s, a) && SameLetters(t, b)
    ensures SameLetters(s + t, a + b)
  {
  }

  lemma ShowIntHasNoLetters(n: int)
    ensures forall ch <- ShowInt(n) :: IsDecimalDigit(ch) || ch == '-'
  {
  }

  lemma SubIsNamed(sub: string, chain: int, root: string)
    requires SameLetters(sub, "eip155:" + (ShowInt(chain) + (":" + root)))
    ensures NamesRoot(sub, chain, root)
  {
    var n := ShowInt(chain);
    ShowIntHasNoLetters(chain);
    SplitLetters(sub, "eip155:", n + (":" + root));
    var rest := sub[7..];
    SplitLetters(rest, n, ":" + root);
    var last := rest[|n|..];
    SplitLetters(last, ":", root);
    CaselessIsItself(rest[..|n|], n);
    CaselessIsItself(last[..1], ":");
    assert sub == sub[..7] + (n + (":" + last[1..]));
  }

  lemma NamedIsSub(sub: string, chain: int, root: string)
    requires NamesRoot(sub, chain, root)
    ensures SameLetters(sub, "eip155:" + (ShowInt(chain) + (":" + root)))
  {
    var n := ShowInt(chain);
    var namespace, address :| sub == namespace + (n + (":" + address))
      && SameLetters(namespace, "eip155:") && SameLetters(address, root);
    JoinLetters(":", address, ":", root);
    JoinLetters(n, ":" + address, n, ":" + root);
    JoinLetters(namespace, n + (":" + address), "eip155:", n + (":" + root));
  }

  lemma SubParts(chain: int, root: string)
    ensures Sub(chain, root) == "eip155:" + (ShowInt(chain) + (":" + root))
  {
  }

  /** What the sub check of Layer 2 accepts: exactly the PSA's chain and root, in any casing. */
  lemma SubExactly(sub: string, chain: int, root: string)
    ensures EqualFold(Sub(chain, root), sub) <==> NamesRoot(sub, chain, root)
  {
    SubParts(chain, root);
    EqualFoldExactly(Sub(chain, root), sub);
    if EqualFold(Sub(chain, root), sub) {
      SubIsNamed(sub, chain, root);
    }
    if NamesRoot(sub, chain, root) {
      NamedIsSub(sub, chain, root);
    }
  }

  lemma OwnSub(chain: int, root: string)
    ensures NamesRoot(Sub(chain, root), chain, root)
  {
    SubTellsRootsApart(chain, root, chain, root);
  }

  lemma SameSub(chain: int, root: string, chain': int, root': string)
    requires NamesRoot(Sub(chain', root'), chain, root)
    ensures chain == chain' && SameLetters(root', root)
  {
    SubParts(chain', root');
    var sub := Sub(chain', root');
    var namespace, address :| sub == namespace + (ShowInt(chain) + (":" + address))
      && SameLetters(namespace, "eip155:") && SameLetters(address, root);
    assert |namespace| == 7;
    assert ShowInt(chain) + (":" + address) == sub[7..] == ShowInt(chain') + (":" + root');
    ShowIntPrefixFree(chain, chain', ":" + address, ":" + root');
    SameTail(":", address, root');
  }

  /** So of the subs that this server writes it accepts those of the same chain and account only. */
  lemma SubTellsRootsApart(chain: int, root: string, chain': int, root': string)
    ensures NamesRoot(Sub(chain', root'), chain, root) <==> chain == chain' && SameLetters(root', root)
  {
    if NamesRoot(Sub(chain', root'), chain, root) {
      SameSub(chain, root, chain', root');
    }
    if chain == chain' && SameLetters(root', root) {
      SubParts(chain', root');
      assert Sub(chain', root') == "eip155:" + (ShowInt(chain) + (":" + root')) && SameLetters("eip155:", "eip155:");
    }
  }

  function MintedClaims(c: Primitives, input: MintInput, now: int, jti: string): AuthClaims {
    AuthClaims(
      input.psa.issuer, "aauth-issuer.json", input.resource.iss, jti, input.agentID, input.agentKey,
      Unix(now), Unix(now + ClampTTL(input.ttl, input.psa.scope.maxTokenTTLSeconds)),
      Sub(input.psa.registryChain, input.psa.root),
      input.mission,
      Ref(input.psaBlobURL, PsaHash(c, input.psa)),
      GrantHash(c, input.grant),
      input.stepUp,
      Claimed(input.claims, "name"), Claimed(input.claims, "email"), Claimed(input.claims, "kyc"))
  }

  /** Why Mint refuses, if it does. */
  function MintCheck(c: Primitives, key: IssuerKey, input: MintInput): Option<MintError> {
    if Thumbprint(c, key.pub) !in input.psa.keyThumbprints.Items() then Some(KeyNotCovered)
    else if exists name :: name in input.claims && name !in input.psa.scope.allowedClaims.Items() then Some(ClaimNotAllowed)
    else CheckPaymentEnvelope(input.psa.scope, input.resource.amountWei, input.stepUp.Some?)
  }

  function SignClaims(key: IssuerKey, claims: AuthClaims): string {
    SignJWT(key, "auth+jwt", ClaimsJson(claims))
  }

  function MintToken(c: Primitives, key: IssuerKey, input: MintInput, now: int, jti: string): Result<string, MintError> {
    match MintCheck(c, key, input)
    case Some(e) => Err(e)
    case None => Ok(SignClaims(key, MintedClaims(c, input, now, jti)))
  }

  method AllAllowed(claims: map<string, Vouched>, allowed: seq<string>) returns (ok: bool)
    ensures ok <==> forall name :: name in claims ==> name in allowed
  {
    var left := claims.Keys;
    while left != {}
      invariant left <= claims.Keys
      invariant forall name :: name in claims.Keys - left ==> name in allowed
      decreases |left|
    {
      var name :| name in left;
      var found := Contains(allowed, name);
      if !found {
        return false;
      }
      left := left - {name};
    }
    return true;
  }

  method ApplyVouched(claims: AuthClaims, m: map<string, Vouched>) returns (out: AuthClaims)
    requires claims.name.None? && claims.email.None? && claims.kyc.None?
    ensures out == claims.(name := Claimed(m, "name"), email := Claimed(m, "email"), kyc := Claimed(m, "kyc"))
  {
    out := claims;
    var left := m.Keys;
    while left != {}
      invariant left <= m.Keys
      invariant out == claims.(
        name := if "name" in left then None else Claimed(m, "name"),
        email := if "email" in left then None else Claimed(m, "email"),
        kyc := if "kyc" in left then None else Claimed(m, "kyc"))
      decreases |left|
    {
      var name :| name in left;
      if name == "name" {
        out := out.(name := Some(m[name]));
      } else if name == "email" {
        out := out.(email := Some(m[name]));
      } else if name == "kyc" {
        out := out.(kyc := Some(m[name]));
      }
      left := left - {name};
    }
  }

  /** The clamps of Mint, one after the other. */
  method ClampStepwise(requested: int, maxSeconds: int) returns (ttl: int)
    ensures ttl == ClampTTL(requested, maxSeconds)
  {
    ttl := requested;
    var limit := Int64(maxSeconds * NANOS_PER_SECOND);
    if ttl > limit {
      ttl := limit;
    }
    if ttl > HOUR {
      ttl := HOUR;
    }
  }

  method BuildClaims(c: Primitives, input: MintInput, now: int, jti: string, ttl: int) returns (claims: AuthClaims)
    requires ttl == ClampTTL(input.ttl, input.psa.scope.maxTokenTTLSeconds)
    ensures claims == MintedClaims(c, input, now, jti)
  {
    claims := AuthClaims(
      input.psa.issuer, "aauth-issuer.json", input.resource.iss, jti, input.agentID, input.agentKey,
      Unix(now), Unix(now + ttl), Sub(input.psa.registryChain, input.psa.root), input.mission,
      Ref(input.psaBlobURL, PsaHash(c, input.psa)), GrantHash(c, input.grant), input.stepUp,
      None, None, None);
    claims := ApplyVouched(claims, input.claims);
  }

  method Mint(c: Primitives, key: IssuerKey, input: MintInput, now: int, jti: string)
    returns (r: Result<string, MintError>)
    ensures r == MintToken(c, key, input, now, jti)
  {
    var covered := Contains(input.psa.keyThumbprints.Items(), Thumbprint(c, key.pub));
    if !covered {
      return Err(KeyNotCovered);
    }
    var ttl := ClampStepwise(input.ttl, input.psa.scope.maxTokenTTLSeconds);
    var allowed := AllAllowed(input.claims, input.psa.scope.allowedClaims.Items());
    if !allowed {
      return Err(ClaimNotAllowed);
    }
    var refusal := CheckPaymentEnvelope(input.psa.scope, input.resource.amountWei, input.stepUp.Some?);
    if refusal.Some? {
      return Err(refusal.value);
    }
    var claims := BuildClaims(c, input, now, jti, ttl);
    r := Ok(SignClaims(key, claims));
  }
}
