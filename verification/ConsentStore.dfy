// consent.Store as the source keeps it: requests behind pointers, two maps, fields overwritten in place.
// Each method is one uninterrupted call; the clock reading it takes is its parameter `now`.
module ConsentStore {
  import Addresses
  import Attest
  import opened Basics
  import opened Consent
  import opened ConsentRuns
  import opened Crypto
  import Eip712

  /** What one uninterrupted approve or deny call leaves behind and returns. */
  function Sequential(cfg: Config, byID: map<string, Entry>, byCode: map<string, string>, now: int, call: Call)
    : (map<string, Entry>, Option<Error>)
    requires forall code :: code in byCode ==> byCode[code] in byID
  {
    if call.code !in byCode then (byID, Some(UnknownCode))
    else
      var id := byCode[call.code];
      var e := byID[id];
      var result :=
        match call
        case ApproveRoutine(_) => Click(e, now)
        case Deny(_) => Transition(e, Denied, now)
        case ApproveElevated(_, root, sig) => (
          match StepUpCheck(cfg.c, cfg.chainID, cfg.registry, e.terms, root, sig)
          case Some(error) => (e, Some(error))
          case None => Transition(e.(stepUpSig := sig), Approved, now));
      (byID[id := result.0], result.1)
  }

  function Verdict(s: ConsentRuns.Store, call: Call, error: Option<Error>): Outcome
    requires error.None? ==> call.code in s.byCode
  {
    match error
    case Some(e) => Refused(e)
    case None => Granted(s.byCode[call.code], if call.Deny? then Denied else Approved, s.now)
  }

  lemma AnsweredStays(cfg: Config, s: ConsentRuns.Store, thread: nat)
    requires thread !in s.threads
    ensures DoAdvance(cfg, s, thread) == s
  {
  }

  /** A click or a denial: the code is looked up, then one locked section decides. */
  lemma UninterruptedLock(cfg: Config, s: ConsentRuns.Store, thread: nat, call: Call)
    requires Indexed(s) && thread !in s.threads && call.code in s.byCode && !call.ApproveElevated?
    ensures var r := Sequential(cfg, s.byID, s.byCode, s.now, call);
      DoAdvance(cfg, DoStart(s, thread, call), thread)
        == s.(byID := r.0, outcomes := s.outcomes + [(thread, Verdict(s, call, r.1))])
  {
    var id := s.byCode[call.code];
    var point := if call.Deny? then DenyFound(id) else ClickFound(id);
    assert s.threads[thread := point] - {thread} == s.threads;
    assert DoStart(s, thread, call) == s.(threads := s.threads[thread := point]);
  }

  /** A call no other thread cuts into runs through its locked sections to the result of the sequential form. */
  lemma UninterruptedCall(cfg: Config, s: ConsentRuns.Store, thread: nat, call: Call)
    requires Indexed(s) && thread !in s.threads
    ensures var r := Sequential(cfg, s.byID, s.byCode, s.now, call);
      Run(cfg, s, [Start(thread, call), Advance(thread), Advance(thread), Advance(thread)])
        == s.(byID := r.0, outcomes := s.outcomes + [(thread, Verdict(s, call, r.1))])
  {
    FourSteps(cfg, s, [Start(thread, call), Advance(thread), Advance(thread), Advance(thread)]);
    var t := DoStart(s, thread, call);
    if call.code !in s.byCode {
      AnsweredStays(cfg, t, thread);
    } else if call.ApproveElevated? {
      UninterruptedStepUp(cfg, s, thread, s.byCode[call.code], call.root, call.sig);
    } else {
      UninterruptedLock(cfg, s, thread, call);
      AnsweredStays(cfg, DoAdvance(cfg, t, thread), thread);
    }
  }

  function AtStepUp(s: ConsentRuns.Store, thread: nat, id: string, root: string, sig: Bytes): ConsentRuns.Store {
    s.(threads := s.threads[thread := StepUpFound(id, root, sig)])
  }

  lemma RefusedStepUp(cfg: Config, s: ConsentRuns.Store, thread: nat, id: string, root: string, sig: Bytes)
    requires thread !in s.threads && id in s.byID
    requires StepUpCheck(cfg.c, cfg.chainID, cfg.registry, s.byID[id].terms, root, sig).Some?
    ensures var t := DoAdvance(cfg, AtStepUp(s, thread, id, root, sig), thread);
      && thread !in t.threads
      && t == s.(outcomes := s.outcomes +
           [(thread, Refused(StepUpCheck(cfg.c, cfg.chainID, cfg.registry, s.byID[id].terms, root, sig).value))])
  {
  }

  lemma PassedStepUp(cfg: Config, s: ConsentRuns.Store, thread: nat, id: string, root: string, sig: Bytes)
    requires thread !in s.threads && id in s.byID
    requires StepUpCheck(cfg.c, cfg.chainID, cfg.registry, s.byID[id].terms, root, sig).None?
    ensures DoAdvance(cfg, AtStepUp(s, thread, id, root, sig), thread)
         == s.(threads := s.threads[thread := StepUpChecked(id, sig)])
  {
    var s1 := AtStepUp(s, thread, id, root, sig);
    assert s1.threads[thread := StepUpChecked(id, sig)] == s.threads[thread := StepUpChecked(id, sig)];
  }

  lemma CheckedStepUp(cfg: Config, s: ConsentRuns.Store, thread: nat, id: string, sig: Bytes)
    requires thread !in s.threads && id in s.byID
    ensures var checked := s.(threads := s.threads[thread := StepUpChecked(id, sig)]);
      var t := DoAdvance(cfg, DoAdvance(cfg, checked, thread), thread);
      var r := Transition(s.byID[id].(stepUpSig := sig), Approved, s.now);
      t == s.(byID := s.byID[id := r.0],
              outcomes := s.outcomes + [(thread, if r.1.None? then Granted(id, Approved, s.now) else Refused(r.1.value))])
  {
  }

  lemma UninterruptedStepUp(cfg: Config, s: ConsentRuns.Store, thread: nat, id: string, root: string, sig: Bytes)
    requires thread !in s.threads && id in s.byID
    ensures var s1 := AtStepUp(s, thread, id, root, sig);
      var t := DoAdvance(cfg, DoAdvance(cfg, DoAdvance(cfg, s1, thread), thread), thread);
      match StepUpCheck(cfg.c, cfg.chainID, cfg.registry, s.byID[id].terms, root, sig)
      case Some(error) => t == s.(outcomes := s.outcomes + [(thread, Refused(error))])
      case None =>
        var r := Transition(s.byID[id].(stepUpSig := sig), Approved, s.now);
        t == s.(byID := s.byID[id := r.0],
                outcomes := s.outcomes + [(thread, if r.1.None? then Granted(id, Approved, s.now) else Refused(r.1.value))])
  {
    if StepUpCheck(cfg.c, cfg.chainID, cfg.registry, s.byID[id].terms, root, sig).Some? {
      RefusedStepUp(cfg, s, thread, id, root, sig);
    } else {
      PassedStepUp(cfg, s, thread, id, root, sig);
      CheckedStepUp(cfg, s, thread, id, sig);
    }
  }

  lemma FourSteps(cfg: Config, s: ConsentRuns.Store, acts: seq<Action>)
    requires |acts| == 4
    ensures Run(cfg, s, acts)
         == Step(cfg, Step(cfg, Step(cfg, Step(cfg, s, acts[0]), acts[1]), acts[2]), acts[3])
  {
    var s1 := Step(cfg, s, acts[0]);
    var s2 := Step(cfg, s1, acts[1]);
    var s3 := Step(cfg, s2, acts[2]);
    assert Run(cfg, s1, acts[1..]) == Run(cfg, s2, acts[1..][1..]);
    assert acts[1..][1..] == acts[2..] && acts[2..][1..] == acts[3..] && acts[3..][1..] == [];
    assert Run(cfg, s2, acts[2..]) == Run(cfg, s3, acts[3..]);
    assert Run(cfg, s3, acts[3..]) == Run(cfg, Step(cfg, s3, acts[3]), []);
  }

  class Request {
    const terms: Terms
    var state: State
    var stepUpSig: Bytes

    constructor (terms: Terms)
      ensures this.terms == terms && Value() == Entry(terms, Pending, [])
    {
      this.terms := terms;
      state := Pending;
      stepUpSig := [];
    }

    ghost function Value(): Entry
      reads this
    {
      Entry(terms, state, stepUpSig)
    }
  }

  /** verifyEOASig: the recovery byte is brought down in a copy, and the signer compared with the root. */
  method VerifyEOASig(c: Primitives, root: string, digest: Bytes32, sig: Bytes) returns (ok: bool)
    ensures ok <==> RootSigned(c, root, digest, sig)
    ensures Eip712.AddressBytes(root).Some? ==> (ok <==> Attest.SignedAs(c, root, digest, sig))
  {
    if Eip712.AddressBytes(root).Some? {
      StepUpSignedExactly(c, root, digest, sig);
    }
    if |sig| != 65 {
      return false;
    }
    var s := new byte[65](i requires 0 <= i < 65 => sig[i]);
    if s[64] >= 27 {
      s[64] := s[64] - 27;
    }
    assert s[..] == Attest.WithPlainRecoveryByte(sig);
    var signer := c.recover(digest, s[..]);
    if signer.None? {
      return false;
    }
    ok := NormalizeHex(Addresses.AddressText(c, signer.value)) == NormalizeHex(root);
  }

  class Store {
    const cfg: Config
    var byID: map<string, Request>
    var byCode: map<string, string>

    constructor (cfg: Config)
      ensures this.cfg == cfg && Valid() && View() == map[] && byID == map[] && byCode == map[]
    {
      this.cfg := cfg;
      byID := map[];
      byCode := map[];
    }

    ghost predicate Valid()
      reads this
    {
      && (forall id :: id in byID ==> byID[id].terms.id == id)
      && (forall code :: code in byCode ==> byCode[code] in byID)
    }

    ghost function View(): map<string, Entry>
      reads this, byID.Values
    {
      map id | id in byID :: byID[id].Value()
    }

    /** Requests filed under other ids are other objects, so a change to one of them shows at its id only. */
    twostate lemma OneEntryChanged(id: string)
      requires Valid() && byID == old(byID) && id in byID
      requires forall other :: other in byID && other != id ==> unchanged(byID[other])
      ensures View() == old(View())[id := byID[id].Value()]
    {
    }

    /** Create files the request under its id and code, over whatever was filed there. */
    method Create(r: Request)
      requires Valid()
      modifies this, r
      ensures Valid()
      ensures r.Value() == old(r.Value()).(state := Pending)
      ensures byID == old(byID)[r.terms.id := r] && byCode == old(byCode)[r.terms.code := r.terms.id]
      ensures r !in old(byID.Values) ==> View() == old(View())[r.terms.id := r.Value()]
    {
      r.state := Pending;
      byID := byID[r.terms.id := r];
      byCode := byCode[r.terms.code := r.terms.id];
    }

    method Poll(id: string, now: int) returns (r: Request?)
      requires Valid()
      modifies if id in byID then {byID[id]} else {}
      ensures Valid()
      ensures r == if id in byID then byID[id] else null
      ensures View() == if id in byID then old(View())[id := Polled(old(View())[id], now)] else old(View())
    {
      if id !in byID {
        return null;
      }
      r := byID[id];
      if r.state == Pending && now > r.terms.expiresAt {
        r.state := Expired;
      }
    }

    method ByCode(code: string) returns (r: Request?)
      requires Valid()
      ensures r == if code in byCode then byID[byCode[code]] else null
      ensures View() == old(View())
    {
      if code !in byCode {
        return null;
      }
      r := byID[byCode[code]];
    }

    method Transit(r: Request, to: State, now: int) returns (err: Option<Error>)
      modifies r
      ensures (r.Value(), err) == Transition(old(r.Value()), to, now)
    {
      if r.state != Pending {
        return Some(Already(r.state));
      }
      if now > r.terms.expiresAt {
        r.state := Expired;
        return Some(WindowClosed);
      }
      r.state := to;
      return None;
    }

    method ApproveRoutine(code: string, now: int) returns (err: Option<Error>)
      requires Valid()
      modifies byID.Values
      ensures Valid()
      ensures View() == Sequential(cfg, old(View()), byCode, now, ConsentRuns.ApproveRoutine(code)).0
      ensures err == Sequential(cfg, old(View()), byCode, now, ConsentRuns.ApproveRoutine(code)).1
    {
      var r := ByCode(code);
      if r == null {
        return Some(UnknownCode);
      }
      if r.terms.tier != Routine {
        OneEntryChanged(byCode[code]);
        return Some(NeedsRootSignature);
      }
      err := Transit(r, Approved, now);
      OneEntryChanged(byCode[code]);
    }

    /** What ApproveElevated looks at without the lock: the tier, then the signature over the digest. */
    method CheckStepUp(terms: Terms, root: string, sig: Bytes) returns (err: Option<Error>)
      ensures err == StepUpCheck(cfg.c, cfg.chainID, cfg.registry, terms, root, sig)
      ensures Eip712.AddressBytes(root).Some? ==>
        (err.None? <==> terms.tier == Elevated && StepUpSigned(cfg.c, cfg.chainID, cfg.registry, terms, root, sig))
    {
      if Eip712.AddressBytes(root).Some? {
        StepUpExactly(cfg.c, cfg.chainID, cfg.registry, terms, root, sig);
      }
      if terms.tier != Elevated {
        return Some(NotElevated);
      }
      var digest := ApprovalDigest(cfg.c, terms, cfg.chainID, cfg.registry);
      if digest.None? {
        return Some(BadDigest);
      }
      var signed := VerifyEOASig(cfg.c, root, digest.value, sig);
      return if signed then None else Some(BadStepUp);
    }

    method ApproveElevated(code: string, root: string, sig: Bytes, now: int) returns (err: Option<Error>)
      requires Valid()
      modifies byID.Values
      ensures Valid()
      ensures View() == Sequential(cfg, old(View()), byCode, now, ConsentRuns.ApproveElevated(code, root, sig)).0
      ensures err == Sequential(cfg, old(View()), byCode, now, ConsentRuns.ApproveElevated(code, root, sig)).1
      ensures Eip712.AddressBytes(root).Some? && code in byCode && err.None? ==>
        StepUpSigned(cfg.c, cfg.chainID, cfg.registry, byID[byCode[code]].terms, root, sig)
    {
      var r := ByCode(code);
      if r == null {
        return Some(UnknownCode);
      }
      OneEntryChanged(byCode[code]);
      err := CheckStepUp(r.terms, root, sig);
      if err.Some? {
        return err;
      }
      r.stepUpSig := sig;
      err := Transit(r, Approved, now);
      OneEntryChanged(byCode[code]);
    }

    method Deny(code: string, now: int) returns (err: Option<Error>)
      requires Valid()
      modifies byID.Values
      ensures Valid()
      ensures View() == Sequential(cfg, old(View()), byCode, now, ConsentRuns.Deny(code)).0
      ensures err == Sequential(cfg, old(View()), byCode, now, ConsentRuns.Deny(code)).1
    {
      var r := ByCode(code);
      if r == null {
        return Some(UnknownCode);
      }
      err := Transit(r, Denied, now);
      OneEntryChanged(byCode[code]);
    }
  }
}
