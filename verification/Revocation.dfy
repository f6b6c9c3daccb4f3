// internal/store/registry.go: the in-memory revocation registry.
module Revocation {
  import opened Attest
  import opened Basics
  import opened Crypto
  import opened Text

  /** The map key of a revocation handle. */
  function Key(root: string, nonce: nat): string {
    root + "#" + ShowNat(nonce)
  }

  /** No two handles share a key, even though a root may itself contain a `#`. */
  lemma KeyInjective(root: string, nonce: nat, root': string, nonce': nat)
    requires Key(root, nonce) == Key(root', nonce')
    ensures root == root' && nonce == nonce'
  {
    LastHash(root, nonce, root', nonce');
    LastHash(root', nonce', root, nonce);
    var s := Key(root, nonce);
    assert s[..|root|] == root && s[..|root'|] == root';
    assert s[|root| + 1..] == ShowNat(nonce) && s[|root'| + 1..] == ShowNat(nonce');
    DigitsOfShowNat(nonce);
    DigitsOfShowNat(nonce');
  }

  lemma LastHash(root: string, nonce: nat, root': string, nonce': nat)
    requires Key(root, nonce) == Key(root', nonce')
    ensures |root'| <= |root|
  {
    var s, digits := Key(root, nonce), ShowNat(nonce);
    assert s[|root'|] == '#';
    assert forall i :: |root| < i < |s| ==> s[i] in digits;
  }

  function Revoke(revoked: set<string>, root: string, nonce: nat): set<string> {
    revoked + {Key(root, nonce)}
  }

  /** The registry as verification reads it: by root and nonce only, and never unavailable. */
  function View(revoked: set<string>): Registry {
    (chain: int, contract: string, root: string, nonce: nat) => Some(Key(root, nonce) in revoked)
  }

  /** Revoking one handle answers true for it and leaves the answer for every other handle as it was. */
  lemma RevokesOneHandle(revoked: set<string>, root: string, nonce: nat,
                         chain: int, contract: string, root': string, nonce': nat)
    ensures View(Revoke(revoked, root, nonce))(chain, contract, root', nonce')
      == if root' == root && nonce' == nonce then Some(true) else View(revoked)(chain, contract, root', nonce')
  {
    if Key(root', nonce') == Key(root, nonce) {
      KeyInjective(root', nonce', root, nonce);
    }
  }

  datatype Handle = Handle(root: string, nonce: nat)

  function RevokeAll(revoked: set<string>, handles: seq<Handle>): set<string>
    decreases |handles|
  {
    if handles == [] then revoked
    else RevokeAll(Revoke(revoked, handles[0].root, handles[0].nonce), handles[1..])
  }

  lemma {:induction false} RevokedStays(revoked: set<string>, handles: seq<Handle>)
    ensures revoked <= RevokeAll(revoked, handles)
    decreases |handles|
  {
    if handles != [] {
      RevokedStays(Revoke(revoked, handles[0].root, handles[0].nonce), handles[1..]);
    }
  }

  /**
   * Revocation is final and per handle: after any sequence of revocations the registry refuses exactly the
   * handles revoked in it or before it.
   */
  lemma {:induction false} RevokedExactly(revoked: set<string>, handles: seq<Handle>, root: string, nonce: nat)
    ensures Key(root, nonce) in RevokeAll(revoked, handles)
       <==> Key(root, nonce) in revoked || Handle(root, nonce) in handles
    decreases |handles|
  {
    if handles != [] {
      var h := handles[0];
      RevokedExactly(Revoke(revoked, h.root, h.nonce), handles[1..], root, nonce);
      RevokesOneHandle(revoked, h.root, h.nonce, 0, "", root, nonce);
      assert handles == [h] + handles[1..];
    }
  }

  /** No attestation on a revoked handle is ever accepted again, at any time and for anyone. */
  lemma RevokedNeverVerifies(c: Primitives, revoked: set<string>, p: PSA, g: AgentGrant, now: int,
                             issuer: string, keyThumb: string, root: string, agentID: string, agentThumb: string)
    ensures Key(p.root, p.nonce) in revoked ==> VerifyPSA(c, View(revoked), now, p, issuer, keyThumb).Some?
    ensures Key(g.root, g.nonce) in revoked ==>
              VerifyAgentGrant(c, View(revoked), now, g, root, agentID, agentThumb).Some?
  {
  }

  /** A registry that cannot be read is never taken for a live answer. */
  lemma UnreadableNeverVerifies(c: Primitives, registry: Registry, p: PSA, g: AgentGrant, now: int,
                                issuer: string, keyThumb: string, root: string, agentID: string, agentThumb: string)
    ensures registry(p.registryChain, p.registry, p.root, p.nonce).None? ==>
              VerifyPSA(c, registry, now, p, issuer, keyThumb).Some?
    ensures registry(g.registryChain, g.registry, g.root, g.nonce).None? ==>
              VerifyAgentGrant(c, registry, now, g, root, agentID, agentThumb).Some?
  {
  }

  class MemoryRegistry {
    var revoked: map<string, bool>

    constructor ()
      ensures revoked == map[] && RevokedKeys() == {}
    {
      revoked := map[];
    }

    function RevokedKeys(): set<string>
      reads this
    {
      set k | k in revoked && revoked[k]
    }

    method RevokeHandle(root: string, nonce: nat)
      modifies this
      ensures RevokedKeys() == Revoke(old(RevokedKeys()), root, nonce)
    {
      revoked := revoked[Key(root, nonce) := true];
    }

    method IsRevoked(chain: int, contract: string, root: string, nonce: nat) returns (answer: Option<bool>)
      ensures answer == View(RevokedKeys())(chain, contract, root, nonce)
    {
      var k := Key(root, nonce);
      answer := Some(k in revoked && revoked[k]);
    }
  }
}
