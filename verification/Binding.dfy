/**
 * What the keys of an exchange depend on (src/wireguard_hybrid_new/handshake/noise.rs). Two
 * exchanges that end in the same roots, or in the same transport keys, had the same messages and
 * secrets, unless one of the hash calls that they make at the same place collides.
 */
module Binding {
  import opened Base
  import opened Codec
  import opened Crypto
  import opened Ratchets
  import opened Noise
  import opened Handshake

  // ----------------------------------------------------------- calls that agree

  /** The inputs of two hash calls do not collide. */
  predicate Hashes(c: Suite, x: Bytes, y: Bytes) {
    c.hash(x) == c.hash(y) ==> x == y
  }

  predicate Hmacs(c: Suite, k: Bytes, x: Bytes, l: Bytes, y: Bytes) {
    c.hmac(k, x) == c.hmac(l, y) ==> k == l && x == y
  }

  /** Both calls of a key derivation. */
  predicate Kdfs(c: Suite, k: Bytes, x: Bytes, l: Bytes, y: Bytes) {
    Hmacs(c, k, x, l, y) && Hmacs(c, c.hmac(k, x), [1], c.hmac(l, y), [1])
  }

  predicate Hkdfs(c: Suite, salt: Bytes, x: Bytes, salt': Bytes, y: Bytes, info: Bytes) {
    c.hkdf(salt, x, info) == c.hkdf(salt', y, info) ==> salt == salt' && x == y
  }

  lemma KdfBinds(c: Suite, k: Bytes, x: Bytes, l: Bytes, y: Bytes)
    requires Kdfs(c, k, x, l, y) && Kdf1(c, k, x) == Kdf1(c, l, y)
    ensures k == l && x == y
  {
  }

  lemma KdfsAlike(c: Suite, k: Bytes, x: Bytes)
    ensures Kdf2(c, k, x).0 == Kdf1(c, k, x) == Kdf3(c, k, x).0
  {
  }

  lemma Split(a: Bytes, b: Bytes, a': Bytes, b': Bytes)
    requires a + b == a' + b' && (|a| == |a'| || |b| == |b'|)
    ensures a == a' && b == b'
  {
    assert |a + b| == |a| + |b| && |a' + b'| == |a'| + |b'|;
    assert (a + b)[..|a|] == a && (a + b)[|a|..] == b;
    assert (a' + b')[..|a'|] == a' && (a' + b')[|a'|..] == b';
  }

  lemma Split3(a: Bytes, b: Bytes, d: Bytes, a': Bytes, b': Bytes, d': Bytes)
    requires a + b + d == a' + b' + d' && |a| == |a'| && (|b| == |b'| || |d| == |d'|)
    ensures a == a' && b == b' && d == d'
  {
    Split(a + b, d, a' + b', d');
    Split(a, b, a', b');
  }

  lemma Split4(a: Bytes, b: Bytes, d: Bytes, e: Bytes, a': Bytes, b': Bytes, d': Bytes, e': Bytes)
    requires a + b + d + e == a' + b' + d' + e' && |a| == |a'| && |b| == |b'|
    requires |d| == |d'| || |e| == |e'|
    ensures a == a' && b == b' && d == d' && e == e'
  {
    Split(a + b + d, e, a' + b' + d', e');
    Split3(a, b, d, a', b', d');
  }

  lemma ModeEpochBinds(mode: nat, epoch: u64, mode': nat, epoch': u64)
    requires mode < TWO_32 && mode' < TWO_32 && ModeEpoch(mode, epoch) == ModeEpoch(mode', epoch')
    ensures mode == mode' && epoch == epoch'
  {
    Widths();
    Split(Le(mode, 4), Le(epoch, 8), Le(mode', 4), Le(epoch', 8));
    LeRoundTrip(mode, 4);
    LeRoundTrip(mode', 4);
    LeRoundTrip(epoch, 8);
    LeRoundTrip(epoch', 8);
  }

  // --------------------------------------------------------------- initiation

  /** What an initiation says in the clear, and to whom. */
  datatype Clear = Clear(pkHash: Hash, mode: nat, epoch: u64, ephemeral: Hash, ephemeralPq: RatchetPub, kid: Kid,
    ratchetCt: Bytes)

  function OpeningOf(c: Suite, x: Clear): Chain {
    Opening(c, x.pkHash, x.mode, x.epoch, x.ephemeral, x.ephemeralPq, x.kid, x.ratchetCt)
  }

  function MeOf(x: Clear): (me: Bytes)
    ensures |me| == 12
  {
    ModeEpoch(x.mode, x.epoch)
  }

  function Ck1(c: Suite, x: Clear): Hash {
    Kdf1(c, c.initialCk, MeOf(x))
  }

  function Ck2(c: Suite, x: Clear): Hash {
    Kdf1(c, Ck1(c, x), x.ephemeral + x.ephemeralPq)
  }

  function KemIn(c: Suite, x: Clear): Bytes {
    c.tag(KemRPublic) + MeOf(x) + x.kid + x.ratchetCt
  }

  function Hs0In(c: Suite, x: Clear): Bytes {
    c.initialHs + c.tag(Version) + x.pkHash + MeOf(x)
  }

  function Hs1In(c: Suite, x: Clear): Bytes {
    c.hash(Hs0In(c, x)) + x.ephemeral + x.ephemeralPq
  }

  function Hs2In(c: Suite, x: Clear): Bytes {
    c.hash(Hs1In(c, x)) + x.kid + x.ratchetCt
  }

  /** No call of `Opening` collides with its counterpart. */
  predicate OpeningApart(c: Suite, x: Clear, y: Clear) {
    && Kdfs(c, c.initialCk, MeOf(x), c.initialCk, MeOf(y))
    && Kdfs(c, Ck1(c, x), x.ephemeral + x.ephemeralPq, Ck1(c, y), y.ephemeral + y.ephemeralPq)
    && Hashes(c, KemIn(c, x), KemIn(c, y))
    && Kdfs(c, Ck2(c, x), c.hash(KemIn(c, x)), Ck2(c, y), c.hash(KemIn(c, y)))
    && Hashes(c, Hs0In(c, x), Hs0In(c, y)) && Hashes(c, Hs1In(c, x), Hs1In(c, y)) && Hashes(c, Hs2In(c, x), Hs2In(c, y))
  }

  lemma OpeningCk(c: Suite, x: Clear, y: Clear)
    requires OpeningApart(c, x, y) && OpeningOf(c, x).ck == OpeningOf(c, y).ck
    ensures MeOf(x) == MeOf(y) && x.ephemeral == y.ephemeral && x.ephemeralPq == y.ephemeralPq
    ensures x.kid == y.kid && x.ratchetCt == y.ratchetCt
  {
    hide Kdfs, Kdf1, Hs0In, Hs1In, Hs2In, ModeEpoch;
    KdfBinds(c, Ck2(c, x), c.hash(KemIn(c, x)), Ck2(c, y), c.hash(KemIn(c, y)));
    Split4(c.tag(KemRPublic), MeOf(x), x.kid, x.ratchetCt, c.tag(KemRPublic), MeOf(y), y.kid, y.ratchetCt);
    KdfBinds(c, Ck1(c, x), x.ephemeral + x.ephemeralPq, Ck1(c, y), y.ephemeral + y.ephemeralPq);
    Split(x.ephemeral, x.ephemeralPq, y.ephemeral, y.ephemeralPq);
  }

  lemma OpeningHs(c: Suite, x: Clear, y: Clear)
    requires OpeningApart(c, x, y) && OpeningOf(c, x).hs == OpeningOf(c, y).hs
    ensures x.pkHash == y.pkHash
  {
    hide Kdfs, Kdf1, KemIn, Ck1, Ck2, ModeEpoch;
    Split3(c.hash(Hs1In(c, x)), x.kid, x.ratchetCt, c.hash(Hs1In(c, y)), y.kid, y.ratchetCt);
    Split3(c.hash(Hs0In(c, x)), x.ephemeral, x.ephemeralPq, c.hash(Hs0In(c, y)), y.ephemeral, y.ephemeralPq);
    Split4(c.initialHs, c.tag(Version), x.pkHash, MeOf(x), c.initialHs, c.tag(Version), y.pkHash, MeOf(y));
  }

  /** Everything that makes the chain of an initiation. */
  datatype Hello = Hello(
    clear: Clear, dh: Hash, shk: Bytes, staticCt: Bytes, ss: Hash, hashStatic: Hash, hId: Hash, psk: Hash,
    identity: Bytes, timestamp: Bytes, auth: Hash, rk: Hash, kRi: Hash, ssR: Bytes)

  function IdsIn(x: Hello): Bytes {
    x.ss + x.hashStatic + x.hId + x.psk
  }

  function Ck4(c: Suite, x: Hello): Hash {
    Kdf1(c, OpeningOf(c, x.clear).ck, x.dh + x.shk)
  }

  function Ck5(c: Suite, x: Hello): Hash {
    Kdf1(c, Ck4(c, x), IdsIn(x))
  }

  function Hs3In(c: Suite, x: Hello): Bytes {
    OpeningOf(c, x.clear).hs + x.staticCt
  }

  function Hs4In(c: Suite, x: Hello): Bytes {
    c.hash(Hs3In(c, x)) + x.identity
  }

  function Hs5In(c: Suite, x: Hello): Bytes {
    c.hash(Hs4In(c, x)) + x.timestamp
  }

  function Hs6In(c: Suite, x: Hello): Bytes {
    c.hash(Hs5In(c, x)) + x.auth
  }

  function MixIn(c: Suite, x: Hello): Bytes {
    c.tag(SessionMaterial) + x.rk + x.kRi + x.ssR + x.hId + c.hash(Hs6In(c, x)) + MeOf(x.clear)
  }

  function HelloChain(c: Suite, x: Hello): Chain {
    var hs6 := c.hash(Hs6In(c, x));
    Chain(MixMaterial(c, Ck5(c, x), x.rk, x.kRi, x.ssR, x.hId, hs6, x.clear.mode, x.clear.epoch), hs6)
  }

  /** No call behind the chain of an initiation collides with its counterpart. */
  predicate HelloApart(c: Suite, x: Hello, y: Hello) {
    && OpeningApart(c, x.clear, y.clear)
    && Kdfs(c, OpeningOf(c, x.clear).ck, x.dh + x.shk, OpeningOf(c, y.clear).ck, y.dh + y.shk)
    && Kdfs(c, Ck4(c, x), IdsIn(x), Ck4(c, y), IdsIn(y))
    && Hashes(c, Hs3In(c, x), Hs3In(c, y)) && Hashes(c, Hs4In(c, x), Hs4In(c, y))
    && Hashes(c, Hs5In(c, x), Hs5In(c, y)) && Hashes(c, Hs6In(c, x), Hs6In(c, y))
    && Hashes(c, MixIn(c, x), MixIn(c, y))
    && Kdfs(c, Ck5(c, x), c.hash(MixIn(c, x)), Ck5(c, y), c.hash(MixIn(c, y)))
  }

  lemma MixBinds(c: Suite, x: Hello, y: Hello)
    requires HelloApart(c, x, y) && HelloChain(c, x).ck == HelloChain(c, y).ck
    ensures Ck5(c, x) == Ck5(c, y) && x.rk == y.rk && x.kRi == y.kRi && x.ssR == y.ssR && x.hId == y.hId
    ensures MeOf(x.clear) == MeOf(y.clear) && c.hash(Hs6In(c, x)) == c.hash(Hs6In(c, y))
  {
    hide Kdfs, Kdf1, OpeningApart, Ck5, Hs6In;
    KdfBinds(c, Ck5(c, x), c.hash(MixIn(c, x)), Ck5(c, y), c.hash(MixIn(c, y)));
    var t := c.tag(SessionMaterial);
    var hx: Hash, hy: Hash := c.hash(Hs6In(c, x)), c.hash(Hs6In(c, y));
    Split(t + x.rk + x.kRi + x.ssR + x.hId + hx, MeOf(x.clear), t + y.rk + y.kRi + y.ssR + y.hId + hy, MeOf(y.clear));
    Split(t + x.rk + x.kRi + x.ssR + x.hId, hx, t + y.rk + y.kRi + y.ssR + y.hId, hy);
    Split(t + x.rk + x.kRi + x.ssR, x.hId, t + y.rk + y.kRi + y.ssR, y.hId);
    Split4(t, x.rk, x.kRi, x.ssR, t, y.rk, y.kRi, y.ssR);
  }

  lemma MessageBinds(c: Suite, x: Hello, y: Hello)
    requires HelloApart(c, x, y) && c.hash(Hs6In(c, x)) == c.hash(Hs6In(c, y))
    ensures x.auth == y.auth && x.timestamp == y.timestamp && x.identity == y.identity && x.staticCt == y.staticCt
    ensures OpeningOf(c, x.clear).hs == OpeningOf(c, y.clear).hs
  {
    hide Kdfs, OpeningApart, Ck4, Ck5, IdsIn, MixIn;
    Split(c.hash(Hs5In(c, x)), x.auth, c.hash(Hs5In(c, y)), y.auth);
    Split(c.hash(Hs4In(c, x)), x.timestamp, c.hash(Hs4In(c, y)), y.timestamp);
    Split(c.hash(Hs3In(c, x)), x.identity, c.hash(Hs3In(c, y)), y.identity);
    Split(OpeningOf(c, x.clear).hs, x.staticCt, OpeningOf(c, y.clear).hs, y.staticCt);
  }

  /** The chain of an initiation has everything that went into it, secrets and roots included. */
  lemma HelloBinds(c: Suite, x: Hello, y: Hello)
    requires HelloApart(c, x, y) && HelloChain(c, x).ck == HelloChain(c, y).ck
    requires x.clear.mode < TWO_32 && y.clear.mode < TWO_32
    ensures x == y
  {
    hide Kdfs, Kdf1, OpeningApart, OpeningOf, MixIn, Hs3In, Hs4In, Hs5In, Hs6In, HelloChain, MeOf;
    MixBinds(c, x, y);
    MessageBinds(c, x, y);
    KdfBinds(c, Ck4(c, x), IdsIn(x), Ck4(c, y), IdsIn(y));
    Split4(x.ss, x.hashStatic, x.hId, x.psk, y.ss, y.hashStatic, y.hId, y.psk);
    KdfBinds(c, OpeningOf(c, x.clear).ck, x.dh + x.shk, OpeningOf(c, y.clear).ck, y.dh + y.shk);
    Split(x.dh, x.shk, y.dh, y.shk);
    OpeningCk(c, x.clear, y.clear);
    OpeningHs(c, x.clear, y.clear);
    SameClear(x.clear, y.clear);
  }

  lemma SameClear(x: Clear, y: Clear)
    requires MeOf(x) == MeOf(y) && x.mode < TWO_32 && y.mode < TWO_32
    ensures x.mode == y.mode && x.epoch == y.epoch
  {
    ModeEpochBinds(x.mode, x.epoch, y.mode, y.epoch);
  }

  // ----------------------------------------------------------------- response

  /** Everything that makes the keys of a response. */
  datatype Answering = Answering(
    start: Chain, psk: Hash, sidI: Sid, sidR: Sid, ephPkPq: RatchetPub, ephemeral: Hash, ephemeralCt: Bytes,
    staticCt: Bytes, hashEphemeral: Hash, master: Bytes, dhEphemeral: Hash, dhStatic: Hash, shk3Raw: Bytes)

  function KeysOf(c: Suite, x: Answering): Shared {
    ResponseKeys(c, x.start, x.psk, x.sidI, x.sidR, x.ephPkPq, x.ephemeral, x.ephemeralCt, x.staticCt,
                 x.hashEphemeral, x.master, x.dhEphemeral, x.dhStatic, x.shk3Raw)
  }

  function SaltOf(x: Answering): Bytes {
    x.sidI + x.sidR + x.ephPkPq + x.hashEphemeral
  }

  function ShkEeOf(c: Suite, x: Answering): Hash {
    c.hkdf(SaltOf(x), x.master, c.tag(ShkEe))
  }

  function Shk2In(c: Suite, x: Answering): Bytes {
    c.hkdf(SaltOf(x), x.master, c.tag(Shk2)) + ShkEeOf(c, x)
  }

  function Shk3In(c: Suite, x: Answering): Bytes {
    x.shk3Raw + ShkEeOf(c, x)
  }

  function FlowIn(x: Answering): Bytes {
    x.ephemeral + x.ephemeralCt + x.hashEphemeral
  }

  function Ck7(c: Suite, x: Answering): Hash {
    Kdf1(c, x.start.ck, FlowIn(x))
  }

  function Ck8(c: Suite, x: Answering): Hash {
    Kdf1(c, Ck7(c, x), x.dhEphemeral + c.hash(Shk2In(c, x)))
  }

  function Ck9(c: Suite, x: Answering): Hash {
    Kdf1(c, Ck8(c, x), x.dhStatic + c.hash(Shk3In(c, x)))
  }

  function Hs7In(c: Suite, x: Answering): Bytes {
    x.start.hs + x.ephemeral + x.ephemeralCt + x.staticCt + x.hashEphemeral
  }

  function H7In(c: Suite, x: Answering): Bytes {
    c.hash(Hs7In(c, x)) + ShkEeOf(c, x)
  }

  function Hs8In(c: Suite, x: Answering): Bytes {
    c.hash(H7In(c, x)) + Kdf3(c, Ck9(c, x), x.psk).1
  }

  /** No call of `ResponseKeys` collides with its counterpart. */
  predicate AnsweringApart(c: Suite, x: Answering, y: Answering) {
    && Hkdfs(c, SaltOf(x), x.master, SaltOf(y), y.master, c.tag(ShkEe))
    && Hashes(c, Shk2In(c, x), Shk2In(c, y)) && Hashes(c, Shk3In(c, x), Shk3In(c, y))
    && Kdfs(c, x.start.ck, FlowIn(x), y.start.ck, FlowIn(y))
    && Kdfs(c, Ck7(c, x), x.dhEphemeral + c.hash(Shk2In(c, x)), Ck7(c, y), y.dhEphemeral + c.hash(Shk2In(c, y)))
    && Kdfs(c, Ck8(c, x), x.dhStatic + c.hash(Shk3In(c, x)), Ck8(c, y), y.dhStatic + c.hash(Shk3In(c, y)))
    && Kdfs(c, Ck9(c, x), x.psk, Ck9(c, y), y.psk)
    && Hashes(c, Hs7In(c, x), Hs7In(c, y)) && Hashes(c, H7In(c, x), H7In(c, y)) && Hashes(c, Hs8In(c, x), Hs8In(c, y))
  }

  lemma AnsweringSecrets(c: Suite, x: Answering, y: Answering)
    requires AnsweringApart(c, x, y) && KeysOf(c, x).chain.ck == KeysOf(c, y).chain.ck
    ensures x.psk == y.psk && x.dhStatic == y.dhStatic && x.dhEphemeral == y.dhEphemeral
    ensures Shk2In(c, x) == Shk2In(c, y) && Shk3In(c, x) == Shk3In(c, y)
    ensures x.start.ck == y.start.ck && FlowIn(x) == FlowIn(y)
  {
    hide Kdfs, Kdf1, Shk2In, Shk3In, FlowIn, SaltOf, ShkEeOf, Hs7In, H7In, Hs8In;
    assert Kdf1(c, Ck9(c, x), x.psk) == Kdf1(c, Ck9(c, y), y.psk) by { ChainOfKeys(c, x); ChainOfKeys(c, y); }
    KdfBinds(c, Ck9(c, x), x.psk, Ck9(c, y), y.psk);
    KdfBinds(c, Ck8(c, x), x.dhStatic + c.hash(Shk3In(c, x)), Ck8(c, y), y.dhStatic + c.hash(Shk3In(c, y)));
    Split(x.dhStatic, c.hash(Shk3In(c, x)), y.dhStatic, c.hash(Shk3In(c, y)));
    KdfBinds(c, Ck7(c, x), x.dhEphemeral + c.hash(Shk2In(c, x)), Ck7(c, y), y.dhEphemeral + c.hash(Shk2In(c, y)));
    Split(x.dhEphemeral, c.hash(Shk2In(c, x)), y.dhEphemeral, c.hash(Shk2In(c, y)));
    KdfBinds(c, x.start.ck, FlowIn(x), y.start.ck, FlowIn(y));
  }

  lemma ChainOfKeys(c: Suite, x: Answering)
    ensures KeysOf(c, x).chain.ck == Kdf1(c, Ck9(c, x), x.psk)
    ensures KeysOf(c, x).hs == c.hash(Hs8In(c, x)) && KeysOf(c, x).shk2 == c.hash(Shk2In(c, x))
  {
  }

  /** The chaining key of a response has both chains' secrets and the ids in it. */
  lemma AnsweringCk(c: Suite, x: Answering, y: Answering)
    requires AnsweringApart(c, x, y) && KeysOf(c, x).chain.ck == KeysOf(c, y).chain.ck
    ensures x.start.ck == y.start.ck && x.psk == y.psk && x.sidI == y.sidI && x.sidR == y.sidR
    ensures x.ephPkPq == y.ephPkPq && x.ephemeral == y.ephemeral && x.ephemeralCt == y.ephemeralCt
    ensures x.hashEphemeral == y.hashEphemeral && x.master == y.master && x.shk3Raw == y.shk3Raw
    ensures x.dhEphemeral == y.dhEphemeral && x.dhStatic == y.dhStatic
  {
    hide Kdfs, Hs7In, H7In, Hs8In, Ck7, Ck8, Ck9, KeysOf;
    AnsweringSecrets(c, x, y);
    Split3(x.ephemeral, x.ephemeralCt, x.hashEphemeral, y.ephemeral, y.ephemeralCt, y.hashEphemeral);
    Split(c.hkdf(SaltOf(x), x.master, c.tag(Shk2)), ShkEeOf(c, x), c.hkdf(SaltOf(y), y.master, c.tag(Shk2)),
      ShkEeOf(c, y));
    Split4(x.sidI, x.sidR, x.ephPkPq, x.hashEphemeral, y.sidI, y.sidR, y.ephPkPq, y.hashEphemeral);
    Split(x.shk3Raw, ShkEeOf(c, x), y.shk3Raw, ShkEeOf(c, y));
  }

  /** With the transcript, nothing of the response is left open. */
  lemma AnsweringBinds(c: Suite, x: Answering, y: Answering)
    requires AnsweringApart(c, x, y)
    requires KeysOf(c, x).chain.ck == KeysOf(c, y).chain.ck && KeysOf(c, x).hs == KeysOf(c, y).hs
    ensures x == y
  {
    hide Kdfs, Ck7, Ck8, Ck9, KeysOf, Kdf3, Shk2In, Shk3In, FlowIn, ShkEeOf, SaltOf;
    AnsweringCk(c, x, y);
    ChainOfKeys(c, x);
    ChainOfKeys(c, y);
    Split(c.hash(H7In(c, x)), Kdf3(c, Ck9(c, x), x.psk).1, c.hash(H7In(c, y)), Kdf3(c, Ck9(c, y), y.psk).1);
    Split(c.hash(Hs7In(c, x)), ShkEeOf(c, x), c.hash(Hs7In(c, y)), ShkEeOf(c, y));
    Split(x.start.hs + x.ephemeral + x.ephemeralCt + x.staticCt, x.hashEphemeral,
          y.start.hs + y.ephemeral + y.ephemeralCt + y.staticCt, y.hashEphemeral);
    Split4(x.start.hs, x.ephemeral, x.ephemeralCt, x.staticCt, y.start.hs, y.ephemeral, y.ephemeralCt, y.staticCt);
  }

  // -------------------------------------------------------------- the next roots

  /** Everything that makes the next roots: `kid` and `epoch` are those of the next epoch. */
  datatype Ending = Ending(
    keys: Answering, rk: Hash, kRi: Hash, ssR: Bytes, confirm: Bytes, auth: Hash, kid: Kid, epoch: u64)

  function Th1In(c: Suite, x: Ending): Bytes {
    KeysOf(c, x.keys).hs + x.confirm
  }

  function ThIn(c: Suite, x: Ending): Bytes {
    c.hash(Th1In(c, x)) + x.auth
  }

  function KOutIn(c: Suite, x: Ending): Bytes {
    c.tag(SessionKey) + KeysOf(c, x.keys).chain.ck + c.hash(ThIn(c, x))
  }

  function RkIn(c: Suite, x: Ending): Bytes {
    c.tag(RecoveryRatchet) + x.rk + c.hash(KOutIn(c, x)) + x.ssR + KeysOf(c, x.keys).shk2 + c.hash(ThIn(c, x))
      + Le(x.epoch, 8)
  }

  function KRiIn(c: Suite, x: Ending): Bytes {
    c.tag(RiRatchet) + x.kRi + c.hash(KOutIn(c, x)) + c.hash(ThIn(c, x)) + x.kid + Le(x.epoch, 8)
  }

  predicate EndingApart(c: Suite, x: Ending, y: Ending) {
    && AnsweringApart(c, x.keys, y.keys)
    && Hashes(c, Th1In(c, x), Th1In(c, y)) && Hashes(c, ThIn(c, x), ThIn(c, y)) && Hashes(c, KOutIn(c, x), KOutIn(c, y))
    && Hashes(c, RkIn(c, x), RkIn(c, y)) && Hashes(c, KRiIn(c, x), KRiIn(c, y))
  }

  lemma RecoveryRootBinds(c: Suite, x: Ending, y: Ending)
    requires EndingApart(c, x, y) && c.hash(RkIn(c, x)) == c.hash(RkIn(c, y))
    ensures x.rk == y.rk && x.ssR == y.ssR && x.epoch == y.epoch && KeysOf(c, x.keys).shk2 == KeysOf(c, y.keys).shk2
    ensures c.hash(KOutIn(c, x)) == c.hash(KOutIn(c, y)) && c.hash(ThIn(c, x)) == c.hash(ThIn(c, y))
  {
    hide AnsweringApart, KeysOf, KOutIn, ThIn, KRiIn, Th1In;
    var t := c.tag(RecoveryRatchet);
    var kx: Hash, ky: Hash := c.hash(KOutIn(c, x)), c.hash(KOutIn(c, y));
    var hx: Hash, hy: Hash := c.hash(ThIn(c, x)), c.hash(ThIn(c, y));
    var sx: Hash, sy: Hash := KeysOf(c, x.keys).shk2, KeysOf(c, y.keys).shk2;
    Split(t + x.rk + kx + x.ssR + sx + hx, Le(x.epoch, 8), t + y.rk + ky + y.ssR + sy + hy, Le(y.epoch, 8));
    Split(t + x.rk + kx + x.ssR + sx, hx, t + y.rk + ky + y.ssR + sy, hy);
    Split(t + x.rk + kx + x.ssR, sx, t + y.rk + ky + y.ssR, sy);
    Split4(t, x.rk, kx, x.ssR, t, y.rk, ky, y.ssR);
    Widths();
    LeRoundTrip(x.epoch, 8);
    LeRoundTrip(y.epoch, 8);
  }

  lemma RiRootBinds(c: Suite, x: Ending, y: Ending)
    requires EndingApart(c, x, y) && c.hash(KRiIn(c, x)) == c.hash(KRiIn(c, y))
    ensures x.kRi == y.kRi && x.kid == y.kid
    ensures c.hash(KOutIn(c, x)) == c.hash(KOutIn(c, y)) && c.hash(ThIn(c, x)) == c.hash(ThIn(c, y))
  {
    hide AnsweringApart, KeysOf, KOutIn, ThIn, RkIn, Th1In;
    var t := c.tag(RiRatchet);
    var kx: Hash, ky: Hash := c.hash(KOutIn(c, x)), c.hash(KOutIn(c, y));
    var hx: Hash, hy: Hash := c.hash(ThIn(c, x)), c.hash(ThIn(c, y));
    Split(t + x.kRi + kx + hx + x.kid, Le(x.epoch, 8), t + y.kRi + ky + hy + y.kid, Le(y.epoch, 8));
    Split(t + x.kRi + kx + hx, x.kid, t + y.kRi + ky + hy, y.kid);
    Split4(t, x.kRi, kx, hx, t, y.kRi, ky, hy);
  }

  lemma TranscriptBinds(c: Suite, x: Ending, y: Ending)
    requires EndingApart(c, x, y) && c.hash(KOutIn(c, x)) == c.hash(KOutIn(c, y))
    ensures x.keys == y.keys && x.confirm == y.confirm && x.auth == y.auth
  {
    hide AnsweringApart, KeysOf, RkIn, KRiIn;
    Split3(c.tag(SessionKey), KeysOf(c, x.keys).chain.ck, c.hash(ThIn(c, x)),
           c.tag(SessionKey), KeysOf(c, y.keys).chain.ck, c.hash(ThIn(c, y)));
    Split(c.hash(Th1In(c, x)), x.auth, c.hash(Th1In(c, y)), y.auth);
    Split(KeysOf(c, x.keys).hs, x.confirm, KeysOf(c, y.keys).hs, y.confirm);
    AnsweringBinds(c, x.keys, y.keys);
  }

  /** The next roots have everything in them. */
  lemma EndingBinds(c: Suite, x: Ending, y: Ending)
    requires EndingApart(c, x, y)
    requires c.hash(RkIn(c, x)) == c.hash(RkIn(c, y)) && c.hash(KRiIn(c, x)) == c.hash(KRiIn(c, y))
    ensures x == y
  {
    hide EndingApart, RkIn, KRiIn, KOutIn, ThIn, KeysOf;
    RecoveryRootBinds(c, x, y);
    RiRootBinds(c, x, y);
    TranscriptBinds(c, x, y);
  }

  // ------------------------------------------------------------------ responder

  /** A responder that processes an initiation. */
  datatype Reading = Reading(g: Config, r: Responder, m: Initiation, sidR: Sid, coins: ResponderCoins, now: u64,
    instant: nat)

  predicate IsAnswered(x: Reading) {
    x.m.epoch + 1 < TWO_64 && Respond(x.g, x.r, x.m, x.sidR, x.coins, x.now, x.instant).1.Answered?
  }

  function After(x: Reading): Responder
    requires IsAnswered(x)
  {
    Respond(x.g, x.r, x.m, x.sidR, x.coins, x.now, x.instant).0
  }

  function ReplyOf(x: Reading): Replied
    requires IsAnswered(x)
  {
    Respond(x.g, x.r, x.m, x.sidR, x.coins, x.now, x.instant).1.reply
  }

  /** The slot of the responder that the initiation names. */
  function SlotOf(x: Reading): Slot
    requires SlotAt(x.r.ratchet, x.m.epoch).Some?
  {
    SlotAt(x.r.ratchet, x.m.epoch).value
  }

  /** What the responder has as the ratchet secret. */
  function SsROf(x: Reading): Bytes
    requires SlotAt(x.r.ratchet, x.m.epoch).Some?
  {
    if x.m.mode == MODE_RATCHET && SlotOf(x).localSecret.Some?
    then x.g.c.decaps(SlotOf(x).localSecret.value, x.m.ratchetCt) else x.g.c.zero32
  }

  function ClearOf(pkHash: Hash, m: Initiation): Clear {
    Clear(pkHash, m.mode, m.epoch, m.ephemeral, m.ephemeralPq, m.kid, m.ratchetCt)
  }

  function HelloR(x: Reading): Hello
    requires SlotAt(x.r.ratchet, x.m.epoch).Some?
  {
    var c, b, m, peer := x.g.c, x.g.b, x.m, AtB(x.g);
    var dh := c.dh(b.sk, m.ephemeral);
    Hello(ClearOf(PkHash(c, Pk(c, b), PkPq(c, b)), m), dh,
          c.staticDecaps(b.skPq, c.stream(Kdf1(c, c.zero32, dh), m.staticCt)), m.staticCt,
          peer.ss, peer.hashStaticPqRecv, peer.hIdRecv, peer.psk, m.identity, m.timestamp, m.auth,
          SlotOf(x).rk, SlotOf(x).kRi, SsROf(x))
  }

  function AnsweringR(x: Reading): Answering
    requires IsAnswered(x) && SlotAt(x.r.ratchet, x.m.epoch).Some?
  {
    var c, m, msg, peer := x.g.c, x.m, ReplyOf(x).msg, AtB(x.g);
    Answering(HelloChain(c, HelloR(x)), peer.psk, m.sender, x.sidR, m.ephemeralPq, msg.ephemeral, msg.ephemeralCt,
      msg.staticCt,
              msg.hashEphemeral, c.encaps(m.ephemeralPq, x.coins.eph).1, c.dh(x.coins.ephSk, m.ephemeral),
              c.dh(x.coins.ephSk, peer.pk), c.staticEncaps(peer.pkPq, x.coins.fixed).1)
  }

  function EndingR(x: Reading): Ending
    requires IsAnswered(x) && SlotAt(x.r.ratchet, x.m.epoch).Some?
  {
    var msg, next := ReplyOf(x).msg, ReplyOf(x).next;
    Ending(AnsweringR(x), SlotOf(x).rk, SlotOf(x).kRi, SsROf(x), msg.confirm, msg.auth, next.localKid, next.epoch)
  }

  lemma SnapshotIsSlot(r: Ratchet, mode: nat, epoch: u64, kid: Kid)
    requires ResponseSnapshot(r, mode, epoch, kid).Ok?
    ensures mode <= MODE_RESYNC && SlotAt(r, epoch).Some?
    ensures var slot, at := ResponseSnapshot(r, mode, epoch, kid).value, SlotAt(r, epoch).value;
            && slot.mode == mode && slot.epoch == epoch && slot.rk == at.rk && slot.kRi == at.kRi
               && slot.slot == at.kind
            && (mode == MODE_RATCHET ==> slot.localSecret == at.localSecret && at.localKid == Some(kid))
  {
  }

  lemma FirstFollows(x: Reading)
    requires ConsumeFirst(x.g.c, x.g.b, AtB(x.g), x.r.ratchet, x.m).Ok?
    ensures var id := ConsumeFirst(x.g.c, x.g.b, AtB(x.g), x.r.ratchet, x.m).value;
            && ResponseSnapshot(x.r.ratchet, x.m.mode, x.m.epoch, x.m.kid) == Ok(id.slot)
            && SlotAt(x.r.ratchet, x.m.epoch).Some?
            && id.fixed == Chain(Ck4(x.g.c, HelloR(x)), x.g.c.hash(Hs3In(x.g.c, HelloR(x))))
  {
    hide ResponseSnapshot, PeerAt, UnpackIdentity, SsROf, Opening;
    var id := ConsumeFirst(x.g.c, x.g.b, AtB(x.g), x.r.ratchet, x.m).value;
    SnapshotIsSlot(x.r.ratchet, x.m.mode, x.m.epoch, x.m.kid);
    var h := HelloR(x);
    KdfsAlike(x.g.c, OpeningOf(x.g.c, h.clear).ck, h.dh + h.shk);
  }

  lemma SecondFollows(x: Reading, id: Identified, now: nat)
    requires SlotAt(x.r.ratchet, x.m.epoch).Some?
    requires var h := HelloR(x); id.fixed == Chain(Ck4(x.g.c, h), x.g.c.hash(Hs3In(x.g.c, h)))
    requires Authenticate(x.g.c, AtB(x.g), id, x.m, x.g.manual, now).Ok?
    ensures var au := Authenticate(x.g.c, AtB(x.g), id, x.m, x.g.manual, now).value;
            au.ck == Ck5(x.g.c, HelloR(x)) && au.hs == x.g.c.hash(Hs6In(x.g.c, HelloR(x)))
  {
    hide PeerAt, SsROf, Opening, RiVerifies, RiKeyFor, Ck4, Hs3In, SlotAt;
    var h := HelloR(x);
    KdfsAlike(x.g.c, Ck4(x.g.c, h), IdsIn(h));
  }

  lemma AcceptFollows(x: Reading, id: Identified, au: Authentic)
    requires SlotAt(x.r.ratchet, x.m.epoch).Some?
    requires ResponseSnapshot(x.r.ratchet, x.m.mode, x.m.epoch, x.m.kid) == Ok(id.slot)
    requires var h := HelloR(x); au.ck == Ck5(x.g.c, h) && au.hs == x.g.c.hash(Hs6In(x.g.c, h))
    requires Accept(x.g.c, AtB(x.g), id, au, x.m, x.g.manual).Ok?
    ensures var acc := Accept(x.g.c, AtB(x.g), id, au, x.m, x.g.manual).value;
            && acc.chain == HelloChain(x.g.c, HelloR(x)) && acc.ssR == SsROf(x)
            && acc.slot.rk == SlotOf(x).rk && acc.slot.kRi == SlotOf(x).kRi && acc.slot.mode == x.m.mode
               && acc.slot.epoch == x.m.epoch
  {
    hide PeerAt, ResponseSnapshot, SlotAt, RiKeyFor, Ck5, Hs6In, MixMaterial;
    SnapshotIsSlot(x.r.ratchet, x.m.mode, x.m.epoch, x.m.kid);
  }

  lemma ReplyFollows(x: Reading, acc: Accepted)
    requires IsAnswered(x) && SlotAt(x.r.ratchet, x.m.epoch).Some?
    requires acc.slot.epoch + 1 < TWO_64
             && CreateResponse(x.g.c, AtB(x.g), x.m, acc, x.sidR, x.coins, x.now) == Ok(ReplyOf(x))
    requires acc.chain == HelloChain(x.g.c, HelloR(x)) && acc.ssR == SsROf(x)
    requires acc.slot.rk == SlotOf(x).rk && acc.slot.kRi == SlotOf(x).kRi && acc.slot.mode == x.m.mode
             && acc.slot.epoch == x.m.epoch
    ensures var c, next, msg := x.g.c, ReplyOf(x).next, ReplyOf(x).msg;
            && next.rk == c.hash(RkIn(c, EndingR(x))) && next.kRi == c.hash(KRiIn(c, EndingR(x)))
            && msg.mode == x.m.mode && msg.epoch == x.m.epoch && msg.sender == x.sidR && msg.receiver == x.m.sender
            && ReplyOf(x).transport.recv.key == Kdf2(c, KeysOf(c, AnsweringR(x)).chain.ck, c.tag(TransportTag)).0
            && ReplyOf(x).transport.send.key == Kdf2(c, KeysOf(c, AnsweringR(x)).chain.ck, c.tag(TransportTag)).1
  {
    hide PeerAt, HelloR, SlotAt, Respond, ResponseKeys, MakeRi, DeriveKid, HelloChain, Kdf2, SsROf, IsAnswered, ReplyOf;
  }

  /** What the answer contains. */
  lemma ReplySays(x: Reading, acc: Accepted)
    requires IsAnswered(x) && SlotAt(x.r.ratchet, x.m.epoch).Some?
    requires acc.slot.epoch + 1 < TWO_64
             && CreateResponse(x.g.c, AtB(x.g), x.m, acc, x.sidR, x.coins, x.now) == Ok(ReplyOf(x))
    requires acc.chain == HelloChain(x.g.c, HelloR(x)) && acc.ssR == SsROf(x)
    requires acc.slot.rk == SlotOf(x).rk && acc.slot.kRi == SlotOf(x).kRi && acc.slot.mode == x.m.mode
             && acc.slot.epoch == x.m.epoch
    ensures Said(x)
  {
    hide PeerAt, HelloR, SlotAt, Respond, ResponseKeys, HelloChain, SsROf, IsAnswered, ReplyOf, PackConfirm, MakeRi;
    var ri := MakeRi(x.g.c, acc.riKey,
      RiSecret(x.g.c, acc.riKey, KeysOf(x.g.c, AnsweringR(x)).chain.ck, KeysOf(x.g.c, AnsweringR(x)).h7),
      x.coins.delta, x.coins.a, x.now);
    assert SealsConfirm(x, ri);
  }

  predicate SealsConfirm(x: Reading, ri: RiProof)
    requires IsAnswered(x) && SlotAt(x.r.ratchet, x.m.epoch).Some?
  {
    var c, keys := x.g.c, KeysOf(x.g.c, AnsweringR(x));
    && x.m.epoch + 1 < TWO_64
    && ReplyOf(x).msg.confirm ==
       c.seal(keys.key, keys.hs, PackConfirm(x.m.epoch + 1, ri, c.kemPub(x.coins.nextSecret), ReplyOf(x).next.localKid))
  }

  /** The fields of a response and of the epoch staged with it, from what the responder drew. */
  ghost predicate Said(x: Reading)
    requires IsAnswered(x) && SlotAt(x.r.ratchet, x.m.epoch).Some?
  {
    var c, msg, next, peer, coins := x.g.c, ReplyOf(x).msg, ReplyOf(x).next, AtB(x.g), x.coins;
    var dhStatic := c.dh(coins.ephSk, peer.pk);
    && msg.ephemeral == c.dhPub(coins.ephSk) && msg.ephemeralCt == c.encaps(x.m.ephemeralPq, coins.eph).0
    && msg.staticCt == c.stream(Kdf1(c, c.zero32, dhStatic), c.staticEncaps(peer.pkPq, coins.fixed).0)
    && msg.hashEphemeral == c.hash(msg.ephemeralCt)
    && next.epoch == x.m.epoch + 1 && next.localSecret == coins.nextSecret
    && next.localKid == c.mac(SlotOf(x).rk, c.tag(KidTag) + Le(x.m.epoch + 1, 8) + c.hash(c.kemPub(coins.nextSecret)))
    && msg.auth == c.hmac(KeysOf(c, AnsweringR(x)).key, c.tag(AuthR) + c.hash(Th1In(c, EndingR(x))))
    && exists ri :: SealsConfirm(x, ri)
  }

  /** Who answers has read the message under the slot it names. */
  lemma AcceptedUnder(x: Reading) returns (acc: Accepted)
    requires IsAnswered(x)
    ensures x.m.mode <= MODE_RESYNC && SlotAt(x.r.ratchet, x.m.epoch).Some?
    ensures After(x).ratchet.pending == Some(ReplyOf(x).next)
    ensures acc.slot.epoch + 1 < TWO_64
            && CreateResponse(x.g.c, AtB(x.g), x.m, acc, x.sidR, x.coins, x.now) == Ok(ReplyOf(x))
    ensures acc.chain == HelloChain(x.g.c, HelloR(x)) && acc.ssR == SsROf(x)
    ensures acc.slot.rk == SlotOf(x).rk && acc.slot.kRi == SlotOf(x).kRi && acc.slot.mode == x.m.mode
            && acc.slot.epoch == x.m.epoch
  {
    hide ConsumeFirst, Authenticate, Accept, CreateResponse, ResponseSnapshot, SlotAt, HelloR, PeerAt, Ck4, Ck5,
         Hs3In, Hs6In,
         HelloChain, SsROf;
    var id := ConsumeFirst(x.g.c, x.g.b, AtB(x.g), x.r.ratchet, x.m).value;
    FirstFollows(x);
    SnapshotIsSlot(x.r.ratchet, x.m.mode, x.m.epoch, x.m.kid);
    var au := Authenticate(x.g.c, AtB(x.g), id, x.m, x.g.manual, x.now).value;
    SecondFollows(x, id, x.now);
    AcceptFollows(x, id, au);
    acc := Accept(x.g.c, AtB(x.g), id, au, x.m, x.g.manual).value;
  }

  /** And it stages what the schedule gives. */
  lemma ResponderFollows(x: Reading)
    requires IsAnswered(x)
    ensures x.m.mode <= MODE_RESYNC && SlotAt(x.r.ratchet, x.m.epoch).Some?
    ensures var c, next, msg := x.g.c, ReplyOf(x).next, ReplyOf(x).msg;
            && After(x).ratchet.pending == Some(next)
            && next.rk == c.hash(RkIn(c, EndingR(x))) && next.kRi == c.hash(KRiIn(c, EndingR(x)))
            && msg.mode == x.m.mode && msg.epoch == x.m.epoch && msg.sender == x.sidR && msg.receiver == x.m.sender
            && ReplyOf(x).transport.recv.key == Kdf2(c, KeysOf(c, AnsweringR(x)).chain.ck, c.tag(TransportTag)).0
            && ReplyOf(x).transport.send.key == Kdf2(c, KeysOf(c, AnsweringR(x)).chain.ck, c.tag(TransportTag)).1
    ensures Said(x)
  {
    hide Respond, CreateResponse, SlotAt, HelloR, PeerAt, HelloChain, KeysOf, RkIn, KRiIn, Kdf2, SsROf, IsAnswered,
         After, ReplyOf, Said;
    var acc := AcceptedUnder(x);
    ReplyFollows(x, acc);
    ReplySays(x, acc);
  }

  /** No call of two answered initiations, from the first byte read to the next roots, collides. */
  predicate ReadingsApart(x: Reading, y: Reading)
    requires IsAnswered(x) && IsAnswered(y)
  {
    ResponderFollows(x);
    ResponderFollows(y);
    HelloApart(x.g.c, HelloR(x), HelloR(y)) && EndingApart(x.g.c, EndingR(x), EndingR(y))
  }

  /**
   * Two exchanges that leave a responder the same next roots were the same exchange: the same two
   * messages, pre-shared key and old roots, the same Diffie-Hellman and KEM secrets.
   */
  lemma ResponderBinds(x: Reading, y: Reading)
    requires x.g.c == y.g.c && IsAnswered(x) && IsAnswered(y) && ReadingsApart(x, y)
    requires After(x).ratchet.pending.Some? && After(y).ratchet.pending.Some?
    requires After(x).ratchet.pending.value.rk == After(y).ratchet.pending.value.rk
    requires After(x).ratchet.pending.value.kRi == After(y).ratchet.pending.value.kRi
    ensures x.m == y.m && ReplyOf(x).msg == ReplyOf(y).msg && x.g.psk == y.g.psk
    ensures SlotAt(x.r.ratchet, x.m.epoch).Some? && SlotAt(y.r.ratchet, y.m.epoch).Some?
    ensures SlotOf(x).rk == SlotOf(y).rk && SlotOf(x).kRi == SlotOf(y).kRi && SsROf(x) == SsROf(y)
    ensures HelloR(x) == HelloR(y) && AnsweringR(x) == AnsweringR(y)
    ensures After(x).ratchet.pending.value.localKid == After(y).ratchet.pending.value.localKid
  {
    hide HelloApart, EndingApart, HelloChain, RkIn, KRiIn, IsAnswered, After, ReplyOf, SsROf, SlotAt;
    ResponderFollows(x);
    ResponderFollows(y);
    EndingBinds(x.g.c, EndingR(x), EndingR(y));
    HelloBinds(x.g.c, HelloR(x), HelloR(y));
  }

  // ------------------------------------------------------------------ initiator

  /** An initiator that begins, and completes from a response. */
  datatype Calling = Calling(g: Config, i: Initiator, sid: Sid, coins: InitiatorCoins, ts: u64, msg: Response, now: nat)

  predicate HasBegun(x: Calling) {
    Begin(x.g, x.i, x.sid, x.coins, x.ts).Ok?
  }

  function Sent(x: Calling): Initiation
    requires HasBegun(x)
  {
    Begin(x.g, x.i, x.sid, x.coins, x.ts).value.0
  }

  function Waiting(x: Calling): Initiator
    requires HasBegun(x)
  {
    Begin(x.g, x.i, x.sid, x.coins, x.ts).value.1
  }

  predicate IsComplete(x: Calling) {
    HasBegun(x) && Complete(x.g, Waiting(x), x.msg, x.now).1.Ok?
  }

  function Committed(x: Calling): Ratchet
    requires IsComplete(x)
  {
    Complete(x.g, Waiting(x), x.msg, x.now).0.ratchet
  }

  function DoneOf(x: Calling): Completed
    requires IsComplete(x)
  {
    Complete(x.g, Waiting(x), x.msg, x.now).1.value
  }

  /** What the initiator has as the ratchet secret. */
  function SsRI(x: Calling): Bytes {
    var snap := Snapshot(x.i);
    if snap.remotePub.Some? then x.g.c.encaps(snap.remotePub.value, x.coins.ratchet).1 else x.g.c.zero32
  }

  function HelloI(x: Calling): Hello
    requires HasBegun(x)
  {
    var c, m, peer := x.g.c, Sent(x), AtA(x.g);
    Hello(ClearOf(peer.pkHash, m), c.dh(x.coins.ephSk, peer.pk), c.staticEncaps(peer.pkPq, x.coins.fixed).1, m.staticCt,
          peer.ss, peer.hashStaticPqSend, peer.hIdSend, peer.psk, m.identity, m.timestamp, m.auth,
          x.i.ratchet.rk, x.i.ratchet.kRi, SsRI(x))
  }

  function AnsweringI(x: Calling): Answering
    requires HasBegun(x)
  {
    var c, me, peer, msg := x.g.c, x.g.a, AtA(x.g), x.msg;
    var dhStatic := c.dh(me.sk, msg.ephemeral);
    Answering(HelloChain(c, HelloI(x)), peer.psk, x.sid, msg.sender, c.kemPub(x.coins.ephSkPq), msg.ephemeral,
      msg.ephemeralCt,
              msg.staticCt, msg.hashEphemeral, c.decaps(x.coins.ephSkPq, msg.ephemeralCt),
              c.dh(x.coins.ephSk, msg.ephemeral), dhStatic,
              c.staticDecaps(me.skPq, c.stream(Kdf1(c, c.zero32, dhStatic), msg.staticCt)))
  }

  function EndingI(x: Calling): Ending
    requires IsComplete(x)
  {
    Ending(AnsweringI(x), x.i.ratchet.rk, x.i.ratchet.kRi, SsRI(x), x.msg.confirm, x.msg.auth, DoneOf(x).kid,
      DoneOf(x).epoch)
  }

  lemma BeginFollows(x: Calling)
    requires HasBegun(x)
    ensures Sent(x).mode <= MODE_RESYNC && Sent(x).sender == x.sid && Waiting(x).ratchet == x.i.ratchet
    ensures Waiting(x).sent.Some?
    ensures var st := Waiting(x).sent.value;
            && st.chain == HelloChain(x.g.c, HelloI(x)) && st.rk == x.i.ratchet.rk && st.kRi == x.i.ratchet.kRi
            && st.ssR == SsRI(x) && st.localSid == x.sid && st.mode == Sent(x).mode && st.epoch == Sent(x).epoch
            && st.ephSk == x.coins.ephSk && st.ephSkPq == x.coins.ephSkPq && st.ephPkPq == x.g.c.kemPub(x.coins.ephSkPq)
  {
    hide PeerAt, Opening, RiKeyFor, MixMaterial, MakeRi;
  }

  lemma CompleteFollows(x: Calling)
    requires IsComplete(x)
    ensures var c, done := x.g.c, DoneOf(x);
            && Committed(x).rk == c.hash(RkIn(c, EndingI(x))) && Committed(x).kRi == c.hash(KRiIn(c, EndingI(x)))
            && x.msg.mode == Sent(x).mode && x.msg.epoch == Sent(x).epoch && x.msg.receiver == Sent(x).sender
            && done.transport.send.key == Kdf2(c, KeysOf(c, AnsweringI(x)).chain.ck, c.tag(TransportTag)).0
            && done.transport.recv.key == Kdf2(c, KeysOf(c, AnsweringI(x)).chain.ck, c.tag(TransportTag)).1
  {
    hide HasBegun, Begin, PeerAt, RiVerifies, RiKeyFor, ResponseKeys, UnpackConfirm, HelloI, HelloChain, SsRI, Kdf2;
    BeginFollows(x);
  }

  /** No call of two completed exchanges, as the initiator makes them, collides. */
  predicate CallingsApart(x: Calling, y: Calling)
    requires IsComplete(x) && IsComplete(y)
  {
    HelloApart(x.g.c, HelloI(x), HelloI(y)) && EndingApart(x.g.c, EndingI(x), EndingI(y))
  }

  /** Likewise for what an initiator commits. */
  lemma InitiatorBinds(x: Calling, y: Calling)
    requires x.g.c == y.g.c && IsComplete(x) && IsComplete(y) && CallingsApart(x, y)
    requires Committed(x).rk == Committed(y).rk && Committed(x).kRi == Committed(y).kRi
    ensures Sent(x) == Sent(y) && x.msg == y.msg && x.g.psk == y.g.psk
    ensures x.i.ratchet.rk == y.i.ratchet.rk && x.i.ratchet.kRi == y.i.ratchet.kRi && SsRI(x) == SsRI(y)
    ensures HelloI(x) == HelloI(y) && AnsweringI(x) == AnsweringI(y)
    ensures DoneOf(x).kid == DoneOf(y).kid
  {
    hide HelloApart, EndingApart, HelloChain, RkIn, KRiIn, HasBegun, Begin, Complete, Committed, DoneOf, SsRI;
    assert HasBegun(x) && HasBegun(y) by { CompleteHasBegun(x); CompleteHasBegun(y); }
    BeginFollows(x);
    BeginFollows(y);
    CompleteFollows(x);
    CompleteFollows(y);
    EndingBinds(x.g.c, EndingI(x), EndingI(y));
    HelloBinds(x.g.c, HelloI(x), HelloI(y));
  }

  lemma CompleteHasBegun(x: Calling)
    requires IsComplete(x)
    ensures HasBegun(x)
  {
  }

  // --------------------------------------------------------- roots, ids, key ids

  /** The identities of a pair, in the order in which they are hashed. */
  function Identities(pk: Hash, pkPq: Bytes, pk': Hash, pkPq': Bytes): Bytes {
    pk + pkPq + pk' + pkPq'
  }

  /** The identity hash of the pair has both static keys of both sides in it, and in what order. */
  lemma IdentityBinds(c: Suite, own: KeyState, pk: Hash, pkPq: Bytes, psk: Hash, own': KeyState, pk': Hash,
                      pkPq': Bytes, psk': Hash)
    requires |PkPq(c, own)| == |pkPq| == |PkPq(c, own')| == |pkPq'|
    requires Hashes(c, Identities(Pk(c, own), PkPq(c, own), pk, pkPq),
             Identities(Pk(c, own'), PkPq(c, own'), pk', pkPq'))
    requires Hashes(c, Identities(pk, pkPq, Pk(c, own), PkPq(c, own)),
             Identities(pk', pkPq', Pk(c, own'), PkPq(c, own')))
    requires var x, y := NewPeer(c, own, pk, pkPq, psk), NewPeer(c, own', pk', pkPq', psk');
             x.hIdSend == y.hIdSend || x.hIdRecv == y.hIdRecv
    ensures Pk(c, own) == Pk(c, own') && PkPq(c, own) == PkPq(c, own') && pk == pk' && pkPq == pkPq'
  {
    if NewPeer(c, own, pk, pkPq, psk).hIdSend == NewPeer(c, own', pk', pkPq', psk').hIdSend {
      Split4(Pk(c, own), PkPq(c, own), pk, pkPq, Pk(c, own'), PkPq(c, own'), pk', pkPq');
    } else {
      Split4(pk, pkPq, Pk(c, own), PkPq(c, own), pk', pkPq', Pk(c, own'), PkPq(c, own'));
    }
  }

  /** A first root has the pre-shared key and both identities in it, whoever comes first. */
  lemma RootBinds(c: Suite, tag: Bytes, own: Hash, peer: Hash, psk: Hash, own': Hash, peer': Hash, psk': Hash)
    requires Hashes(c, tag + own + peer + psk, tag + own' + peer' + psk')
             && Hashes(c, tag + own + peer + psk, tag + peer' + own' + psk')
    requires Hashes(c, tag + peer + own + psk, tag + own' + peer' + psk')
             && Hashes(c, tag + peer + own + psk, tag + peer' + own' + psk')
    requires DeriveRoot(c, tag, own, peer, psk) == DeriveRoot(c, tag, own', peer', psk')
    ensures psk == psk' && ((own == own' && peer == peer') || (own == peer' && peer == own'))
  {
    var x, y := if LexLeq(own, peer) then own else peer, if LexLeq(own, peer) then peer else own;
    var x', y' := if LexLeq(own', peer') then own' else peer', if LexLeq(own', peer') then peer' else own';
    assert tag + x + y + psk == tag + x' + y' + psk';
    Split4(tag, x, y, psk, tag, x', y', psk');
  }

  /** A key id has the recovery root, the epoch and the ratchet key in it. */
  lemma {:induction false} KidBinds(c: Suite, rk: Hash, epoch: u64, pub: RatchetPub, rk': Hash, epoch': u64,
                                    pub': RatchetPub)
    requires var x, y := c.tag(KidTag) + Le(epoch, 8) + c.hash(pub), c.tag(KidTag) + Le(epoch', 8) + c.hash(pub');
             c.mac(rk, x) == c.mac(rk', y) ==> rk == rk' && x == y
    requires Hashes(c, pub, pub')
    requires DeriveKid(c, rk, epoch, pub) == DeriveKid(c, rk', epoch', pub')
    ensures rk == rk' && epoch == epoch' && pub == pub'
  {
    Split3(c.tag(KidTag), Le(epoch, 8), c.hash(pub), c.tag(KidTag), Le(epoch', 8), c.hash(pub'));
    Widths();
    LeRoundTrip(epoch, 8);
    LeRoundTrip(epoch', 8);
  }

  // ------------------------------------------------------------- transport keys

  function T0(c: Suite, ck: Hash): Hash {
    c.hmac(ck, c.tag(TransportTag))
  }

  function T1(c: Suite, ck: Hash): Hash {
    c.hmac(T0(c, ck), [1])
  }

  /** No call that makes the transport keys collides with its counterpart or with one for the other key. */
  predicate TransportApart(c: Suite, x: Hash, y: Hash) {
    && Hmacs(c, x, c.tag(TransportTag), y, c.tag(TransportTag))
    && Hmacs(c, T0(c, x), [1], T0(c, y), [1])
    && Hmacs(c, T0(c, x), T1(c, x) + [2], T0(c, y), T1(c, y) + [2])
    && Hmacs(c, T0(c, x), [1], T0(c, y), T1(c, y) + [2]) && Hmacs(c, T0(c, x), T1(c, x) + [2], T0(c, y), [1])
  }

  lemma TransportBinds(c: Suite, x: Hash, y: Hash)
    requires TransportApart(c, x, y)
    ensures var kx, ky := Kdf2(c, x, c.tag(TransportTag)), Kdf2(c, y, c.tag(TransportTag));
            kx.0 != ky.1 && kx.1 != ky.0 && (kx.0 == ky.0 || kx.1 == ky.1 ==> x == y)
  {
    assert |[1 as byte]| == 1 && |T1(c, x) + [2]| == 33 && |T1(c, y) + [2]| == 33;
  }

  /** The chaining key that the transport keys come from, with the hypothesis on what it hangs on. */
  predicate KeysApart(c: Suite, hx: Hello, ax: Answering, hy: Hello, ay: Answering) {
    && HelloApart(c, hx, hy) && AnsweringApart(c, ax, ay)
    && TransportApart(c, KeysOf(c, ax).chain.ck, KeysOf(c, ay).chain.ck)
  }

  lemma ChainBinds(c: Suite, hx: Hello, ax: Answering, hy: Hello, ay: Answering)
    requires HelloApart(c, hx, hy) && AnsweringApart(c, ax, ay)
    requires ax.start == HelloChain(c, hx) && ay.start == HelloChain(c, hy)
    requires hx.clear.mode <= MODE_RESYNC && hy.clear.mode <= MODE_RESYNC
    requires KeysOf(c, ax).chain.ck == KeysOf(c, ay).chain.ck
    ensures hx == hy && ax.psk == ay.psk && ax.sidI == ay.sidI && ax.sidR == ay.sidR && ax.ephPkPq == ay.ephPkPq
    ensures ax.ephemeral == ay.ephemeral && ax.ephemeralCt == ay.ephemeralCt && ax.hashEphemeral == ay.hashEphemeral
    ensures ax.master == ay.master && ax.shk3Raw == ay.shk3Raw
    ensures ax.dhEphemeral == ay.dhEphemeral && ax.dhStatic == ay.dhStatic
  {
    hide HelloApart, AnsweringApart, KeysOf, HelloChain;
    AnsweringCk(c, ax, ay);
    HelloBinds(c, hx, hy);
  }

  /**
   * A responder never sends under a key that it or another exchange receives under, and two
   * exchanges share a transport key only with the same initiation, the same session ids and
   * ephemerals, and the same secrets and old roots.
   */
  lemma ResponderKeysBind(x: Reading, y: Reading)
    requires x.g.c == y.g.c && IsAnswered(x) && IsAnswered(y)
    requires SlotAt(x.r.ratchet, x.m.epoch).Some? && SlotAt(y.r.ratchet, y.m.epoch).Some?
    requires KeysApart(x.g.c, HelloR(x), AnsweringR(x), HelloR(y), AnsweringR(y))
    ensures var tx, ty := ReplyOf(x).transport, ReplyOf(y).transport;
            && tx.send.key != ty.recv.key && tx.recv.key != ty.send.key
            && (tx.send.key == ty.send.key || tx.recv.key == ty.recv.key ==>
                  && x.m == y.m && x.sidR == y.sidR && x.g.psk == y.g.psk && HelloR(x) == HelloR(y)
                  && ReplyOf(x).msg.ephemeral == ReplyOf(y).msg.ephemeral
                  && ReplyOf(x).msg.ephemeralCt == ReplyOf(y).msg.ephemeralCt)
  {
    hide HelloApart, AnsweringApart, TransportApart, HelloChain, KeysOf, RkIn, KRiIn, IsAnswered, After, ReplyOf,
         SsROf, SlotAt, Kdf2;
    ResponderFollows(x);
    ResponderFollows(y);
    TransportBinds(x.g.c, KeysOf(x.g.c, AnsweringR(x)).chain.ck, KeysOf(y.g.c, AnsweringR(y)).chain.ck);
    if KeysOf(x.g.c, AnsweringR(x)).chain.ck == KeysOf(y.g.c, AnsweringR(y)).chain.ck {
      ChainBinds(x.g.c, HelloR(x), AnsweringR(x), HelloR(y), AnsweringR(y));
    }
  }

  lemma InitiatorKeysBind(x: Calling, y: Calling)
    requires x.g.c == y.g.c && IsComplete(x) && IsComplete(y)
    requires KeysApart(x.g.c, HelloI(x), AnsweringI(x), HelloI(y), AnsweringI(y))
    ensures var tx, ty := DoneOf(x).transport, DoneOf(y).transport;
            && tx.send.key != ty.recv.key && tx.recv.key != ty.send.key
            && (tx.send.key == ty.send.key || tx.recv.key == ty.recv.key ==>
                  && Sent(x) == Sent(y) && x.msg.sender == y.msg.sender && x.g.psk == y.g.psk && HelloI(x) == HelloI(y)
                  && x.msg.ephemeral == y.msg.ephemeral && x.msg.ephemeralCt == y.msg.ephemeralCt)
  {
    hide HelloApart, AnsweringApart, TransportApart, HelloChain, KeysOf, RkIn, KRiIn, HasBegun, Begin, Complete,
         Committed, DoneOf, SsRI, Kdf2;
    assert HasBegun(x) && HasBegun(y) by { CompleteHasBegun(x); CompleteHasBegun(y); }
    BeginFollows(x);
    BeginFollows(y);
    CompleteFollows(x);
    CompleteFollows(y);
    TransportBinds(x.g.c, KeysOf(x.g.c, AnsweringI(x)).chain.ck, KeysOf(y.g.c, AnsweringI(y)).chain.ck);
    if KeysOf(x.g.c, AnsweringI(x)).chain.ck == KeysOf(y.g.c, AnsweringI(y)).chain.ck {
      ChainBinds(x.g.c, HelloI(x), AnsweringI(x), HelloI(y), AnsweringI(y));
    }
  }

  // -------------------------------------------------------------------- a model

  /** The last `n` bytes, filled up with zeros in front. */
  function Tail(n: nat, b: Bytes): (r: Bytes)
    ensures |r| == n && (n <= |b| ==> r == b[|b| - n..])
  {
    if n <= |b| then b[|b| - n..] else Zeros(n - |b|) + b
  }

  /** A suite that hides nothing: hashes are the last bytes of what is hashed. */
  function PlainSuite(): Suite {
    var zero: Hash, one: Hash := seq(32, _ => 0), seq(32, _ => 1);
    Suite(_ => [], zero, zero, zero,
          b => Tail(32, b), (k, b) => Tail(16, b), (k, b) => Tail(32, k + b), _ => one, (_, _) => one,
          sk => Tail(800, sk), (_, coins) => (coins, coins), (_, ct) => ct,
          _ => [], (_, coins) => (coins, coins), (_, ct) => ct,
          (_, _, x) => x, (_, _, x) => Some(x), (_, x) => x, (_, _, _) => zero, 768)
  }

  /** The first exchange of two new devices; the responder draws `next` for the epoch after. */
  function PlainReading(next: byte): Reading {
    var c, zero: Hash := PlainSuite(), seq(32, _ => 0);
    var g := Config(c, KeyState([], []), KeyState([], []), zero, None);
    var start := Start(zero, zero);
    Reading(g, Responder(start, 0, None), Traced(g, PlainSending()).msg, zero,
      ResponderCoins([], [], [], [next], 1, 0), 0, 0)
  }

  function PlainSending(): Sending {
    var zero: Hash := seq(32, _ => 0);
    Sending(InitiationSnapshot(Start(zero, zero)), zero, 1, RiKeyFor(PlainSuite(), None, zero),
      InitiatorCoins([], [], [], [], 1, 0), 0)
  }

  lemma PlainIsLawful()
    ensures Lawful(PlainSuite())
  {
  }

  lemma PlainIsAnswered(next: byte)
    ensures IsAnswered(PlainReading(next))
  {
    hide Initiate, RiKeyFor, Respond, Lawful;
    var x, s := PlainReading(next), PlainSending();
    PlainIsLawful();
    var one: Hash := seq(32, _ => 1);
    assert one[0] == 1 && x.g.c.zero32[0] == 0;
    assert Created(x.g, s).Ok?;
    CreatedIsRemembered(x.g, s);
    HonestIsAnswered(x.g, x.r, s, x.m, Created(x.g, s).value.1, x.sidR, x.coins, x.now, x.instant);
  }

  lemma SameHello(n: byte, k: byte)
    ensures IsAnswered(PlainReading(n)) && IsAnswered(PlainReading(k))
    ensures HelloR(PlainReading(n)) == HelloR(PlainReading(k))
            && AnsweringR(PlainReading(n)) == AnsweringR(PlainReading(k))
  {
    hide PlainSuite, PlainSending, HelloChain, HelloR, Respond, IsAnswered, ReplyOf, PeerAt, Th1In;
    PlainIsAnswered(n);
    PlainIsAnswered(k);
    ResponderFollows(PlainReading(n));
    ResponderFollows(PlainReading(k));
    assert HelloR(PlainReading(n)) == HelloR(PlainReading(k)) by { PlainHello(n, k); }
  }

  lemma PlainHello(n: byte, k: byte)
    ensures HelloR(PlainReading(n)) == HelloR(PlainReading(k))
  {
    hide PlainSuite, PlainSending, Traced, PeerAt, RiKeyFor;
  }

  /** Two byte strings of the same end length that differ `k` bytes before the end. */
  predicate Differ(a: Bytes, b: Bytes, k: nat) {
    1 <= k <= |a| == |b| && a[|a| - k] != b[|b| - k]
  }

  lemma TailsDiffer(a: Bytes, b: Bytes, n: nat, k: nat)
    requires Differ(a, b, k) && k <= n <= |a|
    ensures Differ(Tail(n, a), Tail(n, b), k)
  {
  }

  lemma MoreDiffers(p: Bytes, q: Bytes, a: Bytes, b: Bytes, s: Bytes, t: Bytes, k: nat)
    requires Differ(a, b, k) && |p| == |q| && |s| == |t|
    ensures Differ(p + a + s, q + b + t, k + |s|) && Differ(p + a, q + b, k) && Differ(a + s, b + t, k + |s|)
  {
  }

  lemma PubsDiffer(n: byte, k: byte)
    requires n != k
    ensures Differ(PlainSuite().kemPub([n]), PlainSuite().kemPub([k]), 1)
  {
  }

  lemma {:induction false} KidsDiffer(rk: Hash, epoch: nat, p: RatchetPub, q: RatchetPub)
    requires Differ(p, q, 1)
    ensures var c := PlainSuite();
            Differ(c.mac(rk, c.tag(KidTag) + Le(epoch, 8) + c.hash(p)),
              c.mac(rk, c.tag(KidTag) + Le(epoch, 8) + c.hash(q)), 1)
  {
    var head := Le(epoch, 8);
    TailsDiffer(p, q, 32, 1);
    MoreDiffers(head, head, Tail(32, p), Tail(32, q), [], [], 1);
    assert PlainSuite().tag(KidTag) + head == head;
    TailsDiffer(head + Tail(32, p), head + Tail(32, q), 16, 1);
  }

  lemma ConfirmsDiffer(epoch: u64, ri: RiProof, p: RatchetPub, kid: Kid, ri': RiProof, q: RatchetPub, kid': Kid)
    requires Differ(kid, kid', 1)
    ensures Differ(PackConfirm(epoch, ri, p, kid), PackConfirm(epoch, ri', q, kid'), 9)
  {
    hide Le, PackRi;
    var a, b := Le(epoch, 8) + PackRi(ri) + p, Le(epoch, 8) + PackRi(ri') + q;
    var v, z := Le(PROTOCOL_VERSION_V2_3, 4), Le(0, 4);
    MoreDiffers(a, b, kid, kid', v, v, 1);
    MoreDiffers([], [], a + kid + v, b + kid' + v, z, z, 5);
    assert [] + (a + kid + v) + z == PackConfirm(epoch, ri, p, kid)
      && [] + (b + kid' + v) + z == PackConfirm(epoch, ri', q, kid');
  }

  /** In `PlainSuite` what differs nine bytes before the end of the confirm block goes on to differ. */
  lemma EndingsDiffer(x: Ending, y: Ending)
    requires x.keys == y.keys && x.rk == y.rk && x.kRi == y.kRi && x.ssR == y.ssR && x.epoch == y.epoch
    requires Differ(x.confirm, y.confirm, 9) && Differ(x.kid, y.kid, 1) && |x.confirm| >= 32
    requires var c, key := PlainSuite(), KeysOf(PlainSuite(), x.keys).key;
             && x.auth == c.hmac(key, c.tag(AuthR) + c.hash(Th1In(c, x)))
             && y.auth == c.hmac(key, c.tag(AuthR) + c.hash(Th1In(c, y)))
    ensures EndingDiffers(PlainSuite(), x, y)
  {
    hide KeysOf, Le;
    var c, keys := PlainSuite(), KeysOf(PlainSuite(), x.keys);
    MoreDiffers(keys.hs, keys.hs, x.confirm, y.confirm, [], [], 9);
    TailsDiffer(Th1In(c, x), Th1In(c, y), 32, 9);
    var tx: Hash, ty: Hash := c.hash(Th1In(c, x)), c.hash(Th1In(c, y));
    assert [] + tx == tx && [] + ty == ty;
    MoreDiffers(keys.key, keys.key, tx, ty, [], [], 9);
    TailsDiffer(keys.key + tx, keys.key + ty, 32, 9);
    MoreDiffers(tx, ty, x.auth, y.auth, [], [], 9);
    TailsDiffer(ThIn(c, x), ThIn(c, y), 32, 9);
    LaterDiffers(x, y);
  }

  predicate EndingDiffers(c: Suite, x: Ending, y: Ending) {
    && c.hash(Th1In(c, x)) != c.hash(Th1In(c, y)) && c.hash(ThIn(c, x)) != c.hash(ThIn(c, y))
    && c.hash(KOutIn(c, x)) != c.hash(KOutIn(c, y))
    && c.hash(RkIn(c, x)) != c.hash(RkIn(c, y)) && c.hash(KRiIn(c, x)) != c.hash(KRiIn(c, y))
  }

  lemma LaterDiffers(x: Ending, y: Ending)
    requires x.keys == y.keys && x.rk == y.rk && x.kRi == y.kRi && x.ssR == y.ssR && x.epoch == y.epoch
    requires Differ(x.kid, y.kid, 1)
    requires var c := PlainSuite(); Differ(c.hash(ThIn(c, x)), c.hash(ThIn(c, y)), 9)
    ensures var c := PlainSuite();
            && c.hash(KOutIn(c, x)) != c.hash(KOutIn(c, y))
            && c.hash(RkIn(c, x)) != c.hash(RkIn(c, y)) && c.hash(KRiIn(c, x)) != c.hash(KRiIn(c, y))
  {
    hide KeysOf, Le, ThIn;
    var c := PlainSuite();
    var tx: Hash, ty: Hash := c.hash(ThIn(c, x)), c.hash(ThIn(c, y));
    var t, e := c.tag(SessionKey), Le(x.epoch, 8);
    var ck := KeysOf(c, x.keys).chain.ck;
    MoreDiffers(t + ck, t + ck, tx, ty, [], [], 9);
    TailsDiffer(KOutIn(c, x), KOutIn(c, y), 32, 9);
    var kx: Hash, ky: Hash := c.hash(KOutIn(c, x)), c.hash(KOutIn(c, y));
    MoreDiffers(t + x.rk + kx + x.ssR + KeysOf(c, x.keys).shk2, t + y.rk + ky + y.ssR + KeysOf(c, y.keys).shk2, tx,
      ty, e, e, 9);
    TailsDiffer(RkIn(c, x), RkIn(c, y), 32, 17);
    MoreDiffers(t + x.kRi + kx + tx, t + y.kRi + ky + ty, x.kid, y.kid, e, e, 1);
    TailsDiffer(KRiIn(c, x), KRiIn(c, y), 32, 9);
  }

  lemma HelloSelf(c: Suite, h: Hello)
    ensures HelloApart(c, h, h)
  {
    hide OpeningOf, Ck4, Ck5, Hs0In, Hs1In, Hs2In, Hs3In, Hs4In, Hs5In, Hs6In, Ck1, Ck2, MixIn, MeOf, IdsIn, KemIn;
  }

  lemma AnsweringSelf(c: Suite, x: Answering)
    ensures AnsweringApart(c, x, x)
  {
    hide Ck7, Ck8, Ck9, Hs7In, H7In, Hs8In, Shk2In, Shk3In, FlowIn, SaltOf, ShkEeOf;
  }

  lemma DifferentEndings(c: Suite, x: Ending, y: Ending)
    requires x.keys == y.keys && EndingDiffers(c, x, y)
    ensures EndingApart(c, x, y)
  {
    hide Th1In, ThIn, KOutIn, RkIn, KRiIn, AnsweringApart;
    AnsweringSelf(c, x.keys);
  }

  lemma PlainTransport(ck: Hash)
    ensures TransportApart(PlainSuite(), ck, ck)
  {
    var c := PlainSuite();
    var t0, t1 := T0(c, ck), T1(c, ck);
    assert c.hmac(t0, [1])[31] == 1;
    assert c.hmac(t0, t1 + [2])[31] == 2;
  }

  /** In `PlainSuite`, two first exchanges that differ in the next ratchet secret collide nowhere. */
  lemma PlainRootsDiffer(x: Reading, y: Reading)
    requires IsAnswered(x) && IsAnswered(y) && x.g.c == y.g.c == PlainSuite() && x.m == y.m && x.r == y.r
    requires SlotAt(x.r.ratchet, x.m.epoch).Some? && Said(x) && Said(y)
    requires HelloR(x) == HelloR(y) && AnsweringR(x) == AnsweringR(y)
    requires Differ(PlainSuite().kemPub(x.coins.nextSecret), PlainSuite().kemPub(y.coins.nextSecret), 1)
    ensures EndingDiffers(PlainSuite(), EndingR(x), EndingR(y))
  {
    hide HelloR, AnsweringR, Respond, IsAnswered, ReplyOf, SlotAt, SsROf, Th1In, EndingDiffers, PackConfirm, KeysOf,
         Le, PeerAt;
    var c := PlainSuite();
    KidsDiffer(SlotOf(x).rk, x.m.epoch + 1, c.kemPub(x.coins.nextSecret), c.kemPub(y.coins.nextSecret));
    var ri :| SealsConfirm(x, ri);
    var ri' :| SealsConfirm(y, ri');
    ConfirmsDiffer(x.m.epoch + 1, ri, c.kemPub(x.coins.nextSecret), ReplyOf(x).next.localKid,
                   ri', c.kemPub(y.coins.nextSecret), ReplyOf(y).next.localKid);
    HelloHas(x);
    HelloHas(y);
    EndingsDiffer(EndingR(x), EndingR(y));
  }

  lemma HelloHas(x: Reading)
    requires SlotAt(x.r.ratchet, x.m.epoch).Some?
    ensures HelloR(x).rk == SlotOf(x).rk && HelloR(x).kRi == SlotOf(x).kRi && HelloR(x).ssR == SsROf(x)
  {
    hide SlotAt, PeerAt;
  }

  /** The two model exchanges differ in nothing but the ratchet secret drawn. */
  lemma PlainParts(n: byte, k: byte)
    ensures var x, y := PlainReading(n), PlainReading(k);
            && x.g.c == y.g.c == PlainSuite() && x.m == y.m && x.r == y.r
            && x.coins.nextSecret == [n] && y.coins.nextSecret == [k]
  {
    hide PlainSuite, PlainSending, Traced;
  }

  lemma PlainsApart(n: byte, k: byte)
    requires n != k
    ensures var x, y := PlainReading(n), PlainReading(k);
            && IsAnswered(x) && IsAnswered(y) && ReadingsApart(x, y)
            && ReplyOf(x).next.rk != ReplyOf(y).next.rk && ReplyOf(x).next.kRi != ReplyOf(y).next.kRi
  {
    hide PlainReading, PlainSuite, Respond, IsAnswered, ReplyOf, HelloR, AnsweringR, Said, SlotAt, HelloApart,
         EndingApart,
         RkIn, KRiIn, Th1In, ThIn, KOutIn, Kdf2, KeysOf, After, SsROf;
    var x, y := PlainReading(n), PlainReading(k);
    SameHello(n, k);
    PlainParts(n, k);
    ResponderFollows(x);
    ResponderFollows(y);
    PubsDiffer(n, k);
    PlainRootsDiffer(x, y);
    HelloSelf(x.g.c, HelloR(x));
    DifferentEndings(x.g.c, EndingR(x), EndingR(y));
  }

  /** The hypotheses can be met: by a lawful suite and two exchanges that leave different roots. */
  lemma CollisionsAreAvoidable() returns (x: Reading, y: Reading)
    ensures x.g.c == y.g.c && Lawful(x.g.c) && IsAnswered(x) && IsAnswered(y) && ReadingsApart(x, y)
    ensures SlotAt(x.r.ratchet, x.m.epoch).Some? && SlotAt(y.r.ratchet, y.m.epoch).Some?
    ensures KeysApart(x.g.c, HelloR(x), AnsweringR(x), HelloR(y), AnsweringR(y))
    ensures ReplyOf(x).next.rk != ReplyOf(y).next.rk && ReplyOf(x).next.kRi != ReplyOf(y).next.kRi
  {
    hide PlainReading, PlainSuite, Lawful, Respond, IsAnswered, ReplyOf, HelloR, AnsweringR, SlotAt, HelloApart,
         AnsweringApart,
         TransportApart, KeysOf, ReadingsApart, After, RkIn, KRiIn, Kdf2, Said;
    x, y := PlainReading(0), PlainReading(1);
    PlainIsLawful();
    PlainParts(0, 1);
    PlainsApart(0, 1);
    SameHello(0, 1);
    ResponderFollows(x);
    ResponderFollows(y);
    HelloSelf(x.g.c, HelloR(x));
    AnsweringSelf(x.g.c, AnsweringR(x));
    PlainTransport(KeysOf(x.g.c, AnsweringR(x)).chain.ck);
  }
}
