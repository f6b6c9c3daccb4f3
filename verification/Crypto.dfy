// The cryptographic primitives, as functions about which nothing is assumed.
module Crypto {
  import opened Basics

  datatype Primitives = Primitives(
    sha256: Bytes -> Bytes32,
    keccak256: Bytes -> Bytes32,
    // secp256k1 recovery from a digest and a 65-byte signature: the signer's address
    recover: (Bytes32, Bytes) -> Option<Bytes20>,
    // public key, message, signature
    ed25519Verify: (Bytes, Bytes, Bytes) -> bool,
    // strconv.Quote
    quote: string -> string
  )

  /** Two different members of the given finite sets of hashed inputs with one hash. */
  ghost predicate Collision(h: Bytes -> Bytes32, a: set<Bytes>, b: set<Bytes>) {
    exists x, y :: x in a && y in b && x != y && h(x) == h(y)
  }

  lemma CollisionWidens(h: Bytes -> Bytes32, a: set<Bytes>, b: set<Bytes>, c: set<Bytes>, d: set<Bytes>)
    requires a <= c && b <= d && Collision(h, a, b)
    ensures Collision(h, c, d)
  {
  }

  lemma SameHash(h: Bytes -> Bytes32, a: set<Bytes>, b: set<Bytes>, x: Bytes, y: Bytes)
    requires x in a && y in b && h(x) == h(y)
    ensures x == y || Collision(h, a, b)
  {
  }
}
