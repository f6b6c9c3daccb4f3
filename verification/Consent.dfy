// internal/consent: authorization requests, the approval digest, and the store's transitions as functions.
module Consent {
  import opened Addresses
  import Attest
  import opened Basics
  import opened Crypto
  import Eip712
  import opened Text

  datatype Tier = Routine | Elevated

  datatype State = Pending | Approved | Denied | Expired

  /** The fields of a request that never change after it is created. Instants are in nanoseconds. */
  datatype Terms = Terms(
    id: string,
    code: string,
    agentID: string,
    resource: string,
    amountWei: string,
    scopeReq: Slice<string>,
    missionS256: string,
    tier: Tier,
    createdAt: int,
    expiresAt: int,
    resourceJSON: Bytes
  )

  /** A stored request: its terms, and the two fields that handlers change. */
  datatype Entry = Entry(terms: Terms, state: State, stepUpSig: Bytes)

  // ---------------------------------------------------------------- approval digest

  const APPROVAL_NAME := "Approval"

  const APPROVAL_MEMBERS :=
    "string requestId," + ("string agent," + ("string resource," + ("uint256 amountWei," + ("bytes32 scopeHash,"
    + ("bytes32 missionS256," + "uint256 expiresAt")))))

  const APPROVAL_TYPE := APPROVAL_NAME + "(" + APPROVAL_MEMBERS + ")"

  function ApprovalMessage(t: Terms): Eip712.Field {
    Eip712.Struct(APPROVAL_TYPE,
      [Attest.TextField(t.id), Attest.TextField(t.agentID), Attest.TextField(t.resource),
       Attest.AmountField(t.amountWei), Attest.ListField(t.scopeReq),
       Eip712.HexField(t.missionS256), Attest.Number(Unix(t.expiresAt))])
  }

  lemma ApprovalMembers()
    ensures "string" + " " + "requestId" + "," + ("string" + " " + "agent" + "," + ("string" + " " + "resource"
              + "," + ("uint256" + " " + "amountWei" + "," + ("bytes32" + " " + "scopeHash" + "," + ("bytes32" + " "
              + "missionS256" + "," + ("uint256" + " " + "expiresAt")))))) == APPROVAL_MEMBERS
  {
    assert "string" + " " + "requestId" + "," == "string requestId,";
    assert "string" + " " + "agent" + "," == "string agent,";
    assert "string" + " " + "resource" + "," == "string resource,";
    assert "uint256" + " " + "amountWei" + "," == "uint256 amountWei,";
    assert "bytes32" + " " + "scopeHash" + "," == "bytes32 scopeHash,";
    assert "bytes32" + " " + "missionS256" + "," == "bytes32 missionS256,";
    assert "uint256" + " " + "expiresAt" == "uint256 expiresAt";
  }

  /** What a step-up covers, member by member: this request, and the second in which its window closes. */
  lemma ApprovalIsLaidOut(t: Terms)
    ensures Eip712.LaidOut(ApprovalMessage(t), "Approval",
      [Eip712.Row("string", "requestId", Attest.TextField(t.id)), Eip712.Row("string", "agent", Attest.TextField(t.agentID)),
       Eip712.Row("string", "resource", Attest.TextField(t.resource)),
       Eip712.Row("uint256", "amountWei", Attest.AmountField(t.amountWei)),
       Eip712.Row("bytes32", "scopeHash", Attest.ListField(t.scopeReq)),
       Eip712.Row("bytes32", "missionS256", Eip712.HexField(t.missionS256)),
       Eip712.Row("uint256", "expiresAt", Attest.Number(Unix(t.expiresAt)))], "")
  {
    ApprovalMembers();
    Eip712.SevenLaidOut(ApprovalMessage(t), APPROVAL_NAME, APPROVAL_MEMBERS, "",
      Eip712.Row("string", "requestId", Attest.TextField(t.id)), Eip712.Row("string", "agent", Attest.TextField(t.agentID)),
      Eip712.Row("string", "resource", Attest.TextField(t.resource)),
      Eip712.Row("uint256", "amountWei", Attest.AmountField(t.amountWei)),
      Eip712.Row("bytes32", "scopeHash", Attest.ListField(t.scopeReq)),
      Eip712.Row("bytes32", "missionS256", Eip712.HexField(t.missionS256)),
      Eip712.Row("uint256", "expiresAt", Attest.Number(Unix(t.expiresAt))));
  }

  function ApprovalDigest(c: Primitives, t: Terms, chainID: int, registry: string): Option<Bytes32> {
    Eip712.Digest(c, Attest.Domain(chainID, registry), ApprovalMessage(t))
  }

  function TrimPrefix(s: string, prefix: string): string {
    if prefix <= s then s[|prefix|..] else s
  }

  /** This package's own address normalization: it drops a 0x and then a 0X, and lowers every letter. */
  function NormalizeHex(s: string): string {
    Lower(TrimPrefix(TrimPrefix(s, "0x"), "0X"))
  }

  /** verifyEOASig: the 65 bytes recover to the root's address. */
  predicate RootSigned(c: Primitives, root: string, digest: Bytes32, sig: Bytes) {
    && |sig| == 65
    && var signer := c.recover(digest, Attest.WithPlainRecoveryByte(sig));
       signer.Some? && NormalizeHex(AddressText(c, signer.value)) == NormalizeHex(root)
  }

  lemma LowerNames(s: string, a: Bytes20)
    ensures Lower(s) == HexEncode(a) <==> HexDecode(s) == Some(a)
  {
    var small := HexEncode(a);
    HexEncodeIsSmall(a);
    HexDecodeExactly(s, a);
    if Lower(s) == small {
      assert |Lower(s)| == |s|;
      forall i | 0 <= i < |s|
        ensures SameLetter(s[i], small[i])
      {
        assert Lower(s)[i] == LowerChar(s[i]);
      }
    }
    if SameLetters(s, small) {
      forall i | 0 <= i < |s|
        ensures Lower(s)[i] == small[i]
      {
        assert SameLetter(s[i], small[i]);
      }
    }
  }

  /** The ways in which this package lets a root's forty digits be prefixed. */
  ghost predicate Prefixed(root: string, digits: string) {
    root == digits || root == "0x" + digits || root == "0X" + digits || root == "0x0X" + digits
  }

  lemma TrimmedIsPrefixed(root: string)
    ensures Prefixed(root, TrimPrefix(TrimPrefix(root, "0x"), "0X"))
  {
    var once := TrimPrefix(root, "0x");
    var twice := TrimPrefix(once, "0X");
    assert "0x" <= root ==> root == "0x" + once;
    assert "0X" <= once ==> once == "0X" + twice;
    assert "0x" + ("0X" + twice) == "0x0X" + twice;
  }

  lemma PrefixedIsTrimmed(root: string, digits: string)
    requires Prefixed(root, digits) && HexDecode(digits).Some?
    ensures TrimPrefix(TrimPrefix(root, "0x"), "0X") == digits
  {
    assert |digits| >= 2 ==> DigitValue(digits[1]).Some?;
    assert !("0x" <= digits) && !("0X" <= digits);
    assert ("0x" + digits)[2..] == digits && ("0X" + digits)[2..] == digits && ("0x0X" + digits)[2..] == "0X" + digits;
  }

  /** Whose signature it takes, on every root text: that of the account its digits name. */
  lemma RootSignedExactly(c: Primitives, root: string, digest: Bytes32, sig: Bytes)
    ensures RootSigned(c, root, digest, sig) <==>
      var signer := Attest.SignerOf(c, digest, sig);
      signer.Some? && exists digits :: Prefixed(root, digits) && HexDecode(digits) == Some(signer.value)
  {
    var signer := Attest.SignerOf(c, digest, sig);
    if |sig| == 65 {
      assert Attest.WithPlainRecoveryByte(sig) == sig[..64] + [if sig[64] < 27 then sig[64] else sig[64] - 27];
    }
    if signer.Some? {
      var trimmed := TrimPrefix(TrimPrefix(root, "0x"), "0X");
      PrintedFormNames(c, signer.value);
      LowerNames(trimmed, signer.value);
      TrimmedIsPrefixed(root);
      forall digits | Prefixed(root, digits) && HexDecode(digits) == Some(signer.value)
        ensures digits == trimmed
      {
        PrefixedIsTrimmed(root, digits);
      }
    }
  }

  lemma PrintedFormNames(c: Primitives, a: Bytes20)
    ensures NormalizeHex(AddressText(c, a)) == HexEncode(a)
  {
    AddressTextNames(c, a);
    var text := AddressText(c, a);
    HexDecodeExactly(text[2..], a);
    assert text == "0x" + text[2..];
    PrefixedIsTrimmed(text, text[2..]);
    LowerNames(text[2..], a);
  }

  /** On a root that is an address, it is the same check as that of the attestations. */
  lemma StepUpSignedExactly(c: Primitives, root: string, digest: Bytes32, sig: Bytes)
    requires Eip712.AddressBytes(root).Some?
    ensures RootSigned(c, root, digest, sig) <==> Attest.SignedAs(c, root, digest, sig)
  {
    RootSignedExactly(c, root, digest, sig);
    var digits := Eip712.DropHexPrefix(root);
    assert Prefixed(root, digits);
    PrefixedIsTrimmed(root, digits);
    forall other | Prefixed(root, other) && HexDecode(other).Some?
      ensures other == digits
    {
      PrefixedIsTrimmed(root, other);
    }
  }

  /** A step-up: the root's signature over the approval digest of exactly these terms. */
  predicate StepUpHolds(c: Primitives, chainID: int, registry: string, t: Terms, root: string, sig: Bytes) {
    var digest := ApprovalDigest(c, t, chainID, registry);
    digest.Some? && RootSigned(c, root, digest.value, sig)
  }

  // ---------------------------------------------------------------- store sections

  datatype Error =
    | UnknownRequest
    | UnknownCode
    | NeedsRootSignature
    | NotElevated
    | BadDigest
    | BadStepUp
    | Already(state: State)
    | WindowClosed

  /** time.Now().After(ExpiresAt). */
  predicate Late(e: Entry, now: int) {
    now > e.terms.expiresAt
  }

  /** What the locked section of Poll leaves behind. */
  function Polled(e: Entry, now: int): Entry {
    if e.state == Pending && Late(e, now) then e.(state := Expired) else e
  }

  /** The locked section `transition`: the entry it leaves and the error it returns, if any. */
  function Transition(e: Entry, to: State, now: int): (Entry, Option<Error>) {
    if e.state != Pending then (e, Some(Already(e.state)))
    else if Late(e, now) then (e.(state := Expired), Some(WindowClosed))
    else (e.(state := to), None)
  }

  /** ApproveRoutine after its lookup. */
  function Click(e: Entry, now: int): (Entry, Option<Error>) {
    if e.terms.tier != Routine then (e, Some(NeedsRootSignature)) else Transition(e, Approved, now)
  }

  /** The unlocked checks of ApproveElevated. */
  function StepUpCheck(c: Primitives, chainID: int, registry: string, t: Terms, root: string, sig: Bytes)
    : Option<Error>
  {
    if t.tier != Elevated then Some(NotElevated)
    else
      match ApprovalDigest(c, t, chainID, registry)
      case None => Some(BadDigest)
      case Some(d) => if RootSigned(c, root, d, sig) then None else Some(BadStepUp)
  }

  /** The account that the root's text names signed the approval digest of exactly these terms. */
  ghost predicate StepUpSigned(c: Primitives, chainID: int, registry: string, t: Terms, root: string, sig: Bytes) {
    var digest := ApprovalDigest(c, t, chainID, registry);
    digest.Some? && Attest.SignedAs(c, root, digest.value, sig)
  }

  /** For a root that is an address, exactly that account's signature passes as a step-up. */
  lemma StepUpExactly(c: Primitives, chainID: int, registry: string, t: Terms, root: string, sig: Bytes)
    requires Eip712.AddressBytes(root).Some?
    ensures StepUpCheck(c, chainID, registry, t, root, sig).None? <==>
      t.tier == Elevated && StepUpSigned(c, chainID, registry, t, root, sig)
    ensures StepUpHolds(c, chainID, registry, t, root, sig) <==> StepUpSigned(c, chainID, registry, t, root, sig)
  {
    var digest := ApprovalDigest(c, t, chainID, registry);
    if digest.Some? {
      StepUpSignedExactly(c, root, digest.value, sig);
    }
  }

  /** The state an observer should see: a pending request past its deadline is an expired one. */
  function EffectiveState(e: Entry, now: int): State {
    if e.state == Pending && Late(e, now) then Expired else e.state
  }

  /** What a poll leaves and shows: a pending request past its deadline as expired, any other as it is. */
  lemma PolledExactly(e: Entry, now: int)
    ensures Polled(e, now).state == Expired <==> e.state == Expired || (e.state == Pending && e.terms.expiresAt < now)
    ensures Polled(e, now).state != Expired ==> Polled(e, now) == e
    ensures Polled(e, now).(state := e.state) == e
    ensures EffectiveState(e, now) == Polled(e, now).state
  {
  }
}
