/**
 * The primitives of the v2.3 handshake as uninterpreted functions with their algebraic laws
 * (src/wireguard_hybrid_new/handshake/crypto_params.rs, and the macros of noise.rs).
 * `HASH!(a, b)` hashes the concatenation of its arguments.
 */
module Crypto {
  import opened Base
  import opened Codec

  /** The ASCII labels that separate the uses of the hash functions. */
  datatype Tag =
    | Version | KemRPublic | SessionMaterial | SessionKey | RecoveryRatchet | RiRatchet
    | RootRk | RootKRi | RiKeyTag | KidTag | AuthI | AuthR | Shk2 | ShkEe | TransportTag

  datatype Suite = Suite(
    tag: Tag -> Bytes,                              // the bytes of a label
    initialCk: Hash, initialHs: Hash,               // the two constants that start a handshake
    zero32: Hash,                                   // 32 zero bytes
    hash: Bytes -> Hash,
    mac: (Bytes, Bytes) -> Kid,                     // keyed, 16 bytes
    hmac: (Bytes, Bytes) -> Hash,
    dhPub: Bytes -> Hash,                           // x25519 public key
    dh: (Bytes, Bytes) -> Hash,                     // (secret, public)
    kemPub: Bytes -> RatchetPub,                    // ephemeral and ratchet KEM
    encaps: (RatchetPub, Bytes) -> (Bytes, Bytes),  // (public, coins) -> (ciphertext, secret)
    decaps: (Bytes, Bytes) -> Bytes,                // (secret key, ciphertext)
    staticPub: Bytes -> Bytes,                      // static KEM
    staticEncaps: (Bytes, Bytes) -> (Bytes, Bytes),
    staticDecaps: (Bytes, Bytes) -> Bytes,
    seal: (Bytes, Bytes, Bytes) -> Bytes,           // (key, associated data, plaintext)
    unseal: (Bytes, Bytes, Bytes) -> Option<Bytes>,
    stream: (Bytes, Bytes) -> Bytes,                // ChaCha20 under the zero nonce
    hkdf: (Bytes, Bytes, Bytes) -> Hash,            // (salt, key material, label)
    ratchetCtSize: nat)                             // bytes of a ratchet KEM ciphertext

  ghost predicate DhCommutes(c: Suite) {
    forall a, b :: c.dh(a, c.dhPub(b)) == c.dh(b, c.dhPub(a))
  }

  ghost predicate KemsAgree(c: Suite) {
    && (forall sk, coins ::
          c.decaps(sk, c.encaps(c.kemPub(sk), coins).0) == c.encaps(c.kemPub(sk), coins).1)
    && (forall sk, coins ::
          c.staticDecaps(sk, c.staticEncaps(c.staticPub(sk), coins).0) ==
          c.staticEncaps(c.staticPub(sk), coins).1)
  }

  ghost predicate OpensWhatItSeals(c: Suite) {
    && (forall k, ad, p :: c.unseal(k, ad, c.seal(k, ad, p)) == Some(p))
    && (forall k, x :: c.stream(k, c.stream(k, x)) == x)
  }

  ghost predicate Lawful(c: Suite) {
    DhCommutes(c) && KemsAgree(c) && OpensWhatItSeals(c)
  }

  /** The laws can be met, with no shared secret that is zero: all keys trivial, nothing hidden. */
  lemma LawsAreConsistent(h: Hash, zero: Hash, k: Kid, p: RatchetPub)
    requires h != zero
    ensures exists c :: Lawful(c) && c.zero32 == zero && forall a, b :: c.dh(a, b) != c.zero32
  {
    var c := Suite(
      _ => [], h, h, zero,
      _ => h, (_, _) => k, (_, _) => h, _ => h, (_, _) => h,
      _ => p, (_, coins) => (coins, coins), (_, ct) => ct,
      _ => [], (_, coins) => (coins, coins), (_, ct) => ct,
      (_, _, x) => x, (_, _, x) => Some(x), (_, x) => x, (_, _, _) => h, 768);
    assert Lawful(c) && c.zero32 == zero && forall a, b :: c.dh(a, b) != c.zero32;
  }

  function Kdf0(c: Suite, ck: Bytes, input: Bytes): Hash {
    c.hmac(ck, input)
  }

  function Kdf1(c: Suite, ck: Bytes, input: Bytes): Hash {
    c.hmac(Kdf0(c, ck, input), [1])
  }

  function Kdf2(c: Suite, ck: Bytes, input: Bytes): (Hash, Hash) {
    var t0 := Kdf0(c, ck, input);
    var t1 := c.hmac(t0, [1]);
    (t1, c.hmac(t0, t1 + [2]))
  }

  function Kdf3(c: Suite, ck: Bytes, input: Bytes): (Hash, Hash, Hash) {
    var t0 := Kdf0(c, ck, input);
    var t1 := c.hmac(t0, [1]);
    var t2 := c.hmac(t0, t1 + [2]);
    (t1, t2, c.hmac(t0, t2 + [3]))
  }

  // --------------------------------------------------------------- identities

  /** A device's static keys. */
  datatype KeyState = KeyState(sk: Bytes, skPq: Bytes)

  function Pk(c: Suite, k: KeyState): Hash {
    c.dhPub(k.sk)
  }

  function PkPq(c: Suite, k: KeyState): Bytes {
    c.staticPub(k.skPq)
  }

  /** `Device::hash_static_keys`. */
  function PkHash(c: Suite, pk: Bytes, pkPq: Bytes): Hash {
    c.hash(pk + pkPq)
  }

  /** The constant part of a configured peer. */
  datatype PeerKeys = PeerKeys(
    ss: Hash, psk: Hash, pk: Hash, pkPq: Bytes, pkHash: Hash, ownPkHash: Hash,
    hashStaticPqSend: Hash, hashStaticPqRecv: Hash, hIdSend: Hash, hIdRecv: Hash)

  /** `Peer::new` followed by `set_psk`. */
  function NewPeer(c: Suite, own: KeyState, pk: Hash, pkPq: Bytes, psk: Hash): PeerKeys {
    var ownPk, ownPq := Pk(c, own), PkPq(c, own);
    PeerKeys(
      c.dh(own.sk, pk), psk, pk, pkPq, PkHash(c, pk, pkPq), PkHash(c, ownPk, ownPq),
      c.hash(ownPq + pkPq), c.hash(pkPq + ownPq),
      c.hash(ownPk + ownPq + pk + pkPq), c.hash(pk + pkPq + ownPk + ownPq))
  }

  /** What device `own` stores about device `other`. */
  function PeerAt(c: Suite, own: KeyState, other: KeyState, psk: Hash): PeerKeys {
    NewPeer(c, own, Pk(c, other), PkPq(c, other), psk)
  }

  /** What one side sends is what the other expects: the two views of a pair mirror each other. */
  lemma PeersMirror(c: Suite, a: KeyState, b: KeyState, psk: Hash)
    requires Lawful(c)
    ensures var atA, atB := PeerAt(c, a, b, psk), PeerAt(c, b, a, psk);
            && atA.ss == atB.ss
            && atA.hashStaticPqSend == atB.hashStaticPqRecv && atA.hashStaticPqRecv == atB.hashStaticPqSend
            && atA.hIdSend == atB.hIdRecv && atA.hIdRecv == atB.hIdSend
            && atA.pkHash == atB.ownPkHash && atA.ownPkHash == atB.pkHash
  {
  }

  /** The order of byte arrays. */
  predicate LexLeq(a: Bytes, b: Bytes) {
    a == [] || (b != [] && (a[0] < b[0] || (a[0] == b[0] && LexLeq(a[1..], b[1..]))))
  }

  lemma {:induction false} LexTotal(a: Bytes, b: Bytes)
    ensures LexLeq(a, b) || LexLeq(b, a)
    ensures LexLeq(a, b) && LexLeq(b, a) ==> a == b
  {
    if a != [] && b != [] {
      LexTotal(a[1..], b[1..]);
      assert a == [a[0]] + a[1..] && b == [b[0]] + b[1..];
    }
  }

  /** `RatchetState::derive_root`: the hashes go in by order, not by role. */
  function DeriveRoot(c: Suite, tag: Bytes, ownPkHash: Hash, peerPkHash: Hash, psk: Hash): Hash {
    if LexLeq(ownPkHash, peerPkHash) then c.hash(tag + ownPkHash + peerPkHash + psk)
    else c.hash(tag + peerPkHash + ownPkHash + psk)
  }

  /** Both ends of a pair start from the same roots. */
  lemma RootsAgree(c: Suite, tag: Bytes, x: Hash, y: Hash, psk: Hash)
    ensures DeriveRoot(c, tag, x, y, psk) == DeriveRoot(c, tag, y, x, psk)
  {
    LexTotal(x, y);
  }
}
