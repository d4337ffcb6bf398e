/**
 * The v2.3 handshake messages (src/wireguard_hybrid_new/handshake/noise.rs): what each side
 * computes for and from an initiation and a response.
 */
module Noise {
  import opened Base
  import opened Codec
  import opened Crypto
  import opened Ratchets
  import RP = RiProofs
  import KW = KeyWheel

  type Sid = b: Bytes | |b| == 32 witness seq(32, _ => 0)

  const TIME_BETWEEN_INITIATIONS: nat := 20   // milliseconds

  function SessionIndex(sid: Sid): u32 {
    Widths();
    LeNat(sid[..4])
  }

  /** The chaining key and the handshake hash. */
  datatype Chain = Chain(ck: Hash, hs: Hash)

  datatype Initiation = Initiation(
    mode: nat, epoch: u64, sender: Sid, ephemeral: Hash, ephemeralPq: RatchetPub,
    kid: Kid, ratchetCt: Bytes, staticCt: Bytes, identity: Bytes, timestamp: Bytes, auth: Hash)

  datatype Response = Response(
    mode: nat, epoch: u64, sender: Sid, receiver: Sid, ephemeral: Hash, ephemeralCt: Bytes,
    staticCt: Bytes, hashEphemeral: Hash, confirm: Bytes, auth: Hash)

  datatype SentState = InitiationSent(
    local: u32, localSid: Sid, mode: nat, epoch: u64, ephSk: Bytes, ephSkPq: Bytes, ephPkPq: RatchetPub,
    rk: Hash, kRi: Hash, ssR: Bytes, chain: Chain)

  /** Transport keys, without the identity that the router gives the pair. */
  datatype Transport = Transport(initiator: bool, send: KW.Key, recv: KW.Key)

  /** What an initiator and a responder draw at random. */
  datatype InitiatorCoins = InitiatorCoins(
    ephSk: Bytes, ephSkPq: Bytes, ratchet: Bytes, fixed: Bytes, delta: u16, a: u64)

  datatype ResponderCoins = ResponderCoins(
    ephSk: Bytes, eph: Bytes, fixed: Bytes, nextSecret: Bytes, delta: u16, a: u64)

  // ------------------------------------------------------------- shared pieces

  function ModeEpoch(mode: nat, epoch: nat): Bytes {
    Le(mode, 4) + Le(epoch, 8)
  }

  function RiSecret(c: Suite, riKey: Bytes, ck: Hash, h: Hash): Hash {
    c.hash(riKey + ck + h)
  }

  function RiTarget(c: Suite, riKey: Bytes, secret: Hash): (t: nat)
    ensures 1 <= t <= RP.RANGE
  {
    RP.Target(c.hash(riKey + secret))
  }

  type RiKey = b: Bytes | |b| == 8 witness seq(8, _ => 0)

  function RiMask(riKey: RiKey): u64 {
    Widths();
    LeNat(riKey)
  }

  /** `ri_key_for_epoch` and `effective_ri_key`. */
  function RiKeyFor(c: Suite, manual: Option<RiKey>, kRi: Hash): RiKey {
    match manual
    case Some(key) => key
    case None => c.hash(c.tag(RiKeyTag) + kRi)[..8]
  }

  function MakeRi(c: Suite, riKey: RiKey, secret: Hash, delta: u16, a: u64, now: u64): RiProof {
    RP.MakeProof(RiMask(riKey), RiTarget(c, riKey, secret), delta, a, now)
  }

  predicate RiVerifies(c: Suite, riKey: RiKey, secret: Hash, proof: RiProof, now: nat) {
    RP.Verify(RiMask(riKey), RiTarget(c, riKey, secret), proof, now)
  }

  lemma MadeRiVerifies(c: Suite, riKey: RiKey, secret: Hash, delta: u16, a: u64, ts: u64, now: nat)
    requires 1 <= delta < RP.RANGE
    ensures RiVerifies(c, riKey, secret, MakeRi(c, riKey, secret, delta, a, ts), now) <==>
            RP.Skew(now, ts) <= RP.MAX_SKEW
  {
    RP.ProofVerifies(RiMask(riKey), RiTarget(c, riKey, secret), delta, a, ts, now);
  }

  /**
   * What an RI proof must be, within 120 s: the XOR of the key, the sampled sum and a number that
   * leads, with the offset, to the target that is hashed from the key and the handshake.
   */
  lemma {:induction false} RiIsBound(c: Suite, riKey: RiKey, ck: Hash, h: Hash, proof: RiProof, now: nat)
    ensures RiVerifies(c, riKey, RiSecret(c, riKey, ck, h), proof, now) <==>
              && var target := LeNat(c.hash(riKey + c.hash(riKey + ck + h))[..8]) % 10_000;
              && 1 <= proof.delta < 10_000 && proof.ts <= now + 120 && now <= proof.ts + 120
              && proof.f == RP.Xor(LeNat(riKey), RP.Xor(proof.a, (target + proof.delta) % 10_000 + 1))
              && proof.reserved == [0, 0, 0, 0, 0, 0]
  {
    RP.VerifiedIsMade(RiMask(riKey), RiTarget(c, riKey, RiSecret(c, riKey, ck, h)), proof, now);
  }

  function DeriveKid(c: Suite, rk: Hash, epoch: nat, pub: RatchetPub): Kid {
    c.mac(rk, c.tag(KidTag) + Le(epoch, 8) + c.hash(pub))
  }

  function MixMaterial(c: Suite, ck: Hash, rk: Hash, kRi: Hash, ssR: Bytes, hId: Hash, hs: Hash,
                       mode: nat, epoch: nat): Hash {
    Kdf1(c, ck, c.hash(c.tag(SessionMaterial) + rk + kRi + ssR + hId + hs + ModeEpoch(mode, epoch)))
  }

  function NextRoots(c: Suite, rk: Hash, kRi: Hash, kOut: Hash, ssR: Bytes, ssI: Hash, th: Hash,
                     nextKid: Kid, nextEpoch: nat): (Hash, Hash) {
    (c.hash(c.tag(RecoveryRatchet) + rk + kOut + ssR + ssI + th + Le(nextEpoch, 8)),
     c.hash(c.tag(RiRatchet) + kRi + kOut + th + nextKid + Le(nextEpoch, 8)))
  }

  /** The chain after everything in an initiation that is sent in the clear. */
  function Opening(c: Suite, responderPkHash: Hash, mode: nat, epoch: nat, ephemeral: Hash,
                   ephemeralPq: RatchetPub, kid: Kid, ratchetCt: Bytes): Chain {
    var me := ModeEpoch(mode, epoch);
    var hs := c.hash(c.initialHs + c.tag(Version) + responderPkHash + me);
    var ck := Kdf1(c, c.initialCk, me);
    var ck := Kdf1(c, ck, ephemeral + ephemeralPq);
    var hs := c.hash(hs + ephemeral + ephemeralPq);
    var ck := Kdf1(c, ck, c.hash(c.tag(KemRPublic) + me + kid + ratchetCt));
    Chain(ck, c.hash(hs + kid + ratchetCt))
  }

  // ------------------------------------------------------------ the initiator

  /** What `create_initiation` computes on the way to the message. */
  datatype Trace = Trace(
    dh: Hash, shk: Bytes, ssR: Bytes,
    opening: Chain, key: Hash, fixed: Chain, key2: Hash, ck: Hash, ri: RiProof,
    msg: Initiation, chain: Chain)

  function Initiate(c: Suite, me: KeyState, peer: PeerKeys, snap: InitiationRatchet, sid: Sid, counter: nat,
                    riKey: RiKey, coins: InitiatorCoins, now: u64): Trace
  {
    var ephPk, ephPkPq := c.dhPub(coins.ephSk), c.kemPub(coins.ephSkPq);
    var (ratchetCt, ssR) :=
      if snap.remotePub.Some? then c.encaps(snap.remotePub.value, coins.ratchet)
      else (Zeros(c.ratchetCtSize), c.zero32);
    var opening := Opening(c, peer.pkHash, snap.mode, snap.epoch, ephPk, ephPkPq, snap.remoteKid, ratchetCt);
    var (ct, shk) := c.staticEncaps(peer.pkPq, coins.fixed);
    var dh := c.dh(coins.ephSk, peer.pk);
    var staticCt := c.stream(Kdf1(c, c.zero32, dh), ct);
    var (ck, key) := Kdf2(c, opening.ck, dh + shk);
    var hs := c.hash(opening.hs + staticCt);
    var fixed := Chain(ck, hs);
    var (ck2, key2) := Kdf2(c, ck, peer.ss + peer.hashStaticPqSend + peer.hIdSend + peer.psk);
    var ri := MakeRi(c, riKey, RiSecret(c, riKey, ck2, hs), coins.delta, coins.a, now);
    var identity := c.seal(key, hs, PackIdentity(PkHash(c, Pk(c, me), PkPq(c, me)), ri));
    var hs4 := c.hash(hs + identity);
    var timestamp := c.seal(key2, hs4, Be(counter, 16));
    var hs5 := c.hash(hs4 + timestamp);
    var auth := c.hmac(key2, c.tag(AuthI) + hs5);
    var hs6 := c.hash(hs5 + auth);
    var msg := Initiation(snap.mode, snap.epoch, sid, ephPk, ephPkPq, snap.remoteKid, ratchetCt,
                          staticCt, identity, timestamp, auth);
    Trace(dh, shk, ssR, opening, key, fixed, key2, ck2, ri, msg,
          Chain(MixMaterial(c, ck2, snap.rk, snap.kRi, ssR, peer.hIdSend, hs6, snap.mode, snap.epoch), hs6))
  }

  /** `create_initiation`; an error leaves the peer as it was. */
  function CreateInitiation(c: Suite, me: KeyState, peer: PeerKeys, snap: InitiationRatchet, sid: Sid,
                            counter: nat, riKey: RiKey, coins: InitiatorCoins, now: u64)
    : Result<(Initiation, SentState), HandshakeError>
  {
    if peer.ss == c.zero32 then Err(InvalidSharedSecret)
    else if snap.remotePub.None? && snap.mode == MODE_RATCHET then Err(RatchetStateMissing)
    else if c.dh(coins.ephSk, peer.pk) == c.zero32 then Err(InvalidSharedSecret)
    else
      var t := Initiate(c, me, peer, snap, sid, counter, riKey, coins, now);
      Ok((t.msg,
          InitiationSent(SessionIndex(sid), sid, snap.mode, snap.epoch, coins.ephSk, coins.ephSkPq,
                         c.kemPub(coins.ephSkPq), snap.rk, snap.kRi, t.ssR, t.chain)))
  }

  // ------------------------------------------------------------ the responder

  datatype Identified = Identified(fixed: Chain, slot: ResponseRatchet, ri: RiProof)

  /** `consume_initiation_first_part`: who is calling, and at which epoch. */
  function ConsumeFirst(c: Suite, me: KeyState, peer: PeerKeys, ratchet: Ratchet, m: Initiation)
    : (r: Result<Identified, HandshakeError>)
    ensures r.Ok? ==> r.value.slot.epoch == m.epoch
  {
    if m.mode > MODE_RESYNC then Err(InvalidMode)
    else
      var opening := Opening(c, PkHash(c, Pk(c, me), PkPq(c, me)), m.mode, m.epoch, m.ephemeral, m.ephemeralPq,
                             m.kid, m.ratchetCt);
      var dh := c.dh(me.sk, m.ephemeral);
      if dh == c.zero32 then Err(InvalidSharedSecret)
      else
        var shk := c.staticDecaps(me.skPq, c.stream(Kdf1(c, c.zero32, dh), m.staticCt));
        var (ck, key) := Kdf2(c, opening.ck, dh + shk);
        var hs := c.hash(opening.hs + m.staticCt);
        var plain := c.unseal(key, hs, m.identity);
        if plain.None? || |plain.value| != SIZE_IDENTITY_PLAIN then Err(DecryptionFailure)
        else
          match UnpackIdentity(plain.value)
          case Err(_) => Err(InvalidMessageFormat)
          case Ok((pkHash, ri)) =>
            if pkHash != peer.pkHash then Err(UnknownPublicKey)
            else
              match ResponseSnapshot(ratchet, m.mode, m.epoch, m.kid)
              case Err(e) => Err(e)
              case Ok(slot) => Ok(Identified(Chain(ck, hs), slot, ri))
  }

  datatype Authentic = Authentic(ck: Hash, hs: Hash, counter: nat)

  /** `consume_initiation_second_part` up to the replay check: nothing is changed yet. */
  function Authenticate(c: Suite, peer: PeerKeys, id: Identified, m: Initiation, manual: Option<RiKey>, now: nat)
    : Result<Authentic, HandshakeError>
  {
    var riKey := RiKeyFor(c, manual, id.slot.kRi);
    if peer.ss == c.zero32 then Err(InvalidSharedSecret)
    else
      var (ck, key) := Kdf2(c, id.fixed.ck, peer.ss + peer.hashStaticPqRecv + peer.hIdRecv + peer.psk);
      if !RiVerifies(c, riKey, RiSecret(c, riKey, ck, id.fixed.hs), id.ri, now) then Err(InvalidTi)
      else
        var hs := c.hash(id.fixed.hs + m.identity);
        var received := c.unseal(key, hs, m.timestamp);
        if received.None? || |received.value| != 16 then Err(DecryptionFailure)
        else
          var hs := c.hash(hs + m.timestamp);
          if c.hmac(key, c.tag(AuthI) + hs) != m.auth then Err(DecryptionFailure)
          else Ok(Authentic(ck, c.hash(hs + m.auth), BeNat(received.value)))
  }

  datatype Accepted = Accepted(slot: ResponseRatchet, ssR: Bytes, chain: Chain, riKey: RiKey)

  /** The rest of `consume_initiation_second_part`. */
  function Accept(c: Suite, peer: PeerKeys, id: Identified, au: Authentic, m: Initiation, manual: Option<RiKey>)
    : (r: Result<Accepted, HandshakeError>)
    ensures r.Ok? ==> r.value.slot == id.slot
  {
    var slot := id.slot;
    if slot.mode == MODE_RATCHET && slot.localSecret.None? then Err(RatchetStateMissing)
    else
      var ssR := if slot.mode == MODE_RATCHET then c.decaps(slot.localSecret.value, m.ratchetCt) else c.zero32;
      Ok(Accepted(slot, ssR,
                  Chain(MixMaterial(c, au.ck, slot.rk, slot.kRi, ssR, peer.hIdRecv, au.hs, slot.mode, slot.epoch),
                    au.hs),
                  RiKeyFor(c, manual, slot.kRi)))
  }

  /** The part of the response schedule that both sides run once the secrets are shared. */
  datatype Shared = Shared(chain: Chain, h7: Hash, hs: Hash, key: Hash, shk2: Hash)

  function ResponseKeys(c: Suite, start: Chain, psk: Hash, sidI: Sid, sidR: Sid, ephPkPq: RatchetPub,
                        ephemeral: Hash, ephemeralCt: Bytes, staticCt: Bytes, hashEphemeral: Hash,
                        master: Bytes, dhEphemeral: Hash, dhStatic: Hash, shk3Raw: Bytes): Shared
  {
    var salt := sidI + sidR + ephPkPq + hashEphemeral;
    var shk2Raw := c.hkdf(salt, master, c.tag(Shk2));
    var shkEe := c.hkdf(salt, master, c.tag(ShkEe));
    var shk2 := c.hash(shk2Raw + shkEe);
    var shk3 := c.hash(shk3Raw + shkEe);
    var ck := Kdf1(c, start.ck, ephemeral + ephemeralCt + hashEphemeral);
    var hs := c.hash(start.hs + ephemeral + ephemeralCt + staticCt + hashEphemeral);
    var ck := Kdf1(c, ck, dhEphemeral + shk2);
    var ck := Kdf1(c, ck, dhStatic + shk3);
    var h7 := c.hash(hs + shkEe);
    var (ck, tau, key) := Kdf3(c, ck, psk);
    Shared(Chain(ck, hs), h7, c.hash(h7 + tau), key, shk2)
  }

  /** What the responder makes of the shared secrets: the confirm block, its tag, the keys, the next epoch. */
  datatype Confirmation = Confirmation(confirm: Bytes, auth: Hash, keyRecv: Hash, keySend: Hash, next: PendingRatchet)

  function Confirm(c: Suite, acc: Accepted, sh: Shared, coins: ResponderCoins, now: u64): Confirmation
    requires acc.slot.epoch + 1 < TWO_64
  {
    var slot := acc.slot;
    var nextEpoch := slot.epoch + 1;
    var nextPub := c.kemPub(coins.nextSecret);
    var nextKid := DeriveKid(c, slot.rk, nextEpoch, nextPub);
    var ri := MakeRi(c, acc.riKey, RiSecret(c, acc.riKey, sh.chain.ck, sh.h7), coins.delta, coins.a, now);
    var confirm := c.seal(sh.key, sh.hs, PackConfirm(nextEpoch, ri, nextPub, nextKid));
    var hs := c.hash(sh.hs + confirm);
    var auth := c.hmac(sh.key, c.tag(AuthR) + hs);
    var hs := c.hash(hs + auth);
    var kOut := c.hash(c.tag(SessionKey) + sh.chain.ck + hs);
    var (nextRk, nextKRi) := NextRoots(c, slot.rk, slot.kRi, kOut, acc.ssR, sh.shk2, hs, nextKid, nextEpoch);
    var (keyRecv, keySend) := Kdf2(c, sh.chain.ck, c.tag(TransportTag));
    Confirmation(confirm, auth, keyRecv, keySend, PendingRatchet(nextEpoch, nextRk, nextKRi, nextKid, coins.nextSecret))
  }

  datatype Replied = Replied(msg: Response, transport: Transport, next: PendingRatchet)

  /** `create_response`; the next epoch is staged by the caller of this function. */
  function CreateResponse(c: Suite, peer: PeerKeys, m: Initiation, acc: Accepted, sidR: Sid,
                          coins: ResponderCoins, now: u64): (r: Result<Replied, HandshakeError>)
    requires acc.slot.epoch + 1 < TWO_64
    ensures r.Ok? <==> c.dh(coins.ephSk, peer.pk) != c.zero32 && c.dh(coins.ephSk, m.ephemeral) != c.zero32
    ensures r.Ok? ==> r.value.next.epoch == acc.slot.epoch + 1
  {
    var ephPk := c.dhPub(coins.ephSk);
    var (ephemeralCt, master) := c.encaps(m.ephemeralPq, coins.eph);
    var hashEphemeral := c.hash(ephemeralCt);
    var (ct, shk3Raw) := c.staticEncaps(peer.pkPq, coins.fixed);
    var dhStatic := c.dh(coins.ephSk, peer.pk);
    var dhEphemeral := c.dh(coins.ephSk, m.ephemeral);
    if dhStatic == c.zero32 || dhEphemeral == c.zero32 then Err(InvalidSharedSecret)
    else
      var staticCt := c.stream(Kdf1(c, c.zero32, dhStatic), ct);
      var sh := ResponseKeys(c, acc.chain, peer.psk, m.sender, sidR, m.ephemeralPq, ephPk, ephemeralCt,
                             staticCt, hashEphemeral, master, dhEphemeral, dhStatic, shk3Raw);
      var conf := Confirm(c, acc, sh, coins, now);
      Ok(Replied(
        Response(acc.slot.mode, acc.slot.epoch, sidR, m.sender, ephPk, ephemeralCt, staticCt, hashEphemeral,
                 conf.confirm, conf.auth),
        Transport(false, KW.Key.Key(conf.keySend, SessionIndex(m.sender)),
          KW.Key.Key(conf.keyRecv, SessionIndex(sidR))),
        conf.next))
  }

  // ------------------------------------------------- the initiator, once more

  datatype Completed = Completed(transport: Transport, epoch: u64, pub: RatchetPub, kid: Kid, rk: Hash, kRi: Hash)

  /** The checks on the confirm block, and what follows from it. */
  function CheckConfirm(c: Suite, st: SentState, sh: Shared, m: Response, riKey: RiKey, now: nat)
    : Result<Completed, HandshakeError>
  {
    var plain := c.unseal(sh.key, sh.hs, m.confirm);
    if plain.None? || |plain.value| != SIZE_CONFIRM_PLAIN then Err(DecryptionFailure)
    else
      match UnpackConfirm(plain.value)
      case Err(_) => Err(InvalidConfirm)
      case Ok((nextEpoch, ri, nextPub, nextKid)) =>
        if nextEpoch != st.epoch + 1 then Err(InvalidConfirm)
        else
          var hs := c.hash(sh.hs + m.confirm);
          if c.hmac(sh.key, c.tag(AuthR) + hs) != m.auth then Err(DecryptionFailure)
          else
            var hs := c.hash(hs + m.auth);
            if !RiVerifies(c, riKey, RiSecret(c, riKey, sh.chain.ck, sh.h7), ri, now) then Err(InvalidTr)
            else
              var kOut := c.hash(c.tag(SessionKey) + sh.chain.ck + hs);
              var (nextRk, nextKRi) := NextRoots(c, st.rk, st.kRi, kOut, st.ssR, sh.shk2, hs, nextKid, nextEpoch);
              var (keySend, keyRecv) := Kdf2(c, sh.chain.ck, c.tag(TransportTag));
              Ok(Completed(
                Transport(true, KW.Key.Key(keySend, SessionIndex(m.sender)), KW.Key.Key(keyRecv, st.local)),
                nextEpoch, nextPub, nextKid, nextRk, nextKRi))
  }

  /** `verify_response_hash` and `consume_response`. */
  function ConsumeResponse(c: Suite, me: KeyState, peer: PeerKeys, st: SentState, m: Response,
                           riKey: RiKey, now: nat): Result<Completed, HandshakeError>
  {
    if m.hashEphemeral != c.hash(m.ephemeralCt) then Err(DecryptionFailure)
    else if st.localSid != m.receiver then Err(UnknownReceiverId)
    else if m.mode != st.mode || m.epoch != st.epoch then Err(InvalidEpoch)
    else
      var master := c.decaps(st.ephSkPq, m.ephemeralCt);
      var dhStatic := c.dh(me.sk, m.ephemeral);
      var dhEphemeral := c.dh(st.ephSk, m.ephemeral);
      if dhStatic == c.zero32 || dhEphemeral == c.zero32 then Err(InvalidSharedSecret)
      else
        var shk3Raw := c.staticDecaps(me.skPq, c.stream(Kdf1(c, c.zero32, dhStatic), m.staticCt));
        var sh := ResponseKeys(c, st.chain, peer.psk, st.localSid, m.sender, st.ephPkPq, m.ephemeral, m.ephemeralCt,
                               m.staticCt, m.hashEphemeral, master, dhEphemeral, dhStatic, shk3Raw);
        CheckConfirm(c, st, sh, m, riKey, now)
  }

  // ------------------------------------------------------- honest exchanges

  /** The transport keys of one side are those of the other, crosswise. */
  predicate Mirrored(i: Transport, r: Transport) {
    i.send == r.recv && i.recv == r.send && i.initiator && !r.initiator
  }

  /** What the initiator commits is what the responder keeps pending. */
  predicate SameEpochState(c: Suite, i: Completed, r: PendingRatchet) {
    && i.epoch == r.epoch && i.rk == r.rk && i.kRi == r.kRi
    && i.kid == r.localKid && i.pub == c.kemPub(r.localSecret)
  }

  /** The responder recomputes the initiator's chain; only its ratchet can refuse the caller. */
  lemma FirstPartAgrees(c: Suite, a: KeyState, b: KeyState, psk: Hash, snap: InitiationRatchet, sid: Sid,
                        counter: nat, riKey: RiKey, coins: InitiatorCoins, ts: u64, ratchet: Ratchet)
    requires Lawful(c) && snap.mode <= MODE_RESYNC
    requires c.dh(coins.ephSk, Pk(c, b)) != c.zero32
    ensures var t := Initiate(c, a, PeerAt(c, a, b, psk), snap, sid, counter, riKey, coins, ts);
            ConsumeFirst(c, b, PeerAt(c, b, a, psk), ratchet, t.msg) ==
            match ResponseSnapshot(ratchet, snap.mode, snap.epoch, snap.remoteKid)
            case Err(e) => Err(e)
            case Ok(slot) => Ok(Identified(t.fixed, slot, t.ri))
  {
    var atA, atB := PeerAt(c, a, b, psk), PeerAt(c, b, a, psk);
    var t := Initiate(c, a, atA, snap, sid, counter, riKey, coins, ts);
    PeersMirror(c, a, b, psk);
    assert c.dh(b.sk, t.msg.ephemeral) == t.dh;
    assert c.stream(Kdf1(c, c.zero32, t.dh), t.msg.staticCt) == c.staticEncaps(atA.pkPq, coins.fixed).0;
    assert c.staticDecaps(b.skPq, c.staticEncaps(c.staticPub(b.skPq), coins.fixed).0) == t.shk;
    assert c.unseal(t.key, t.fixed.hs, t.msg.identity) == Some(PackIdentity(PkHash(c, Pk(c, a), PkPq(c, a)), t.ri));
    IdentityRoundTrip(PkHash(c, Pk(c, a), PkPq(c, a)), t.ri);
  }

  /** The responder reads the initiator's counter, under the same chain. */
  lemma SecondPartAgrees(c: Suite, a: KeyState, b: KeyState, psk: Hash, snap: InitiationRatchet, sid: Sid,
                         counter: nat, riKey: RiKey, coins: InitiatorCoins, ts: u64,
                         slot: ResponseRatchet, manual: Option<RiKey>, now: nat)
    requires Lawful(c) && counter < Pow256(16)
    ensures var t := Initiate(c, a, PeerAt(c, a, b, psk), snap, sid, counter, riKey, coins, ts);
            var r := Authenticate(c, PeerAt(c, b, a, psk), Identified(t.fixed, slot, t.ri), t.msg, manual, now);
            && (r.Ok? ==> r.value == Authentic(t.ck, t.chain.hs, counter))
            && (riKey == RiKeyFor(c, manual, slot.kRi) && 1 <= coins.delta < RP.RANGE &&
                PeerAt(c, a, b, psk).ss != c.zero32 ==>
                  (r.Ok? <==> RP.Skew(now, ts) <= RP.MAX_SKEW))
  {
    var atA, atB := PeerAt(c, a, b, psk), PeerAt(c, b, a, psk);
    var t := Initiate(c, a, atA, snap, sid, counter, riKey, coins, ts);
    PeersMirror(c, a, b, psk);
    BeRoundTrip(counter, 16);
    assert c.unseal(t.key2, c.hash(t.fixed.hs + t.msg.identity), t.msg.timestamp) == Some(Be(counter, 16));
    if 1 <= coins.delta < RP.RANGE {
      MadeRiVerifies(c, riKey, RiSecret(c, riKey, t.ck, t.fixed.hs), coins.delta, coins.a, ts, now);
    }
  }

  /** With the same roots and the matching ratchet secret the chains agree to the end. */
  lemma AcceptAgrees(c: Suite, a: KeyState, b: KeyState, psk: Hash, snap: InitiationRatchet, sid: Sid,
                     counter: nat, riKey: RiKey, coins: InitiatorCoins, ts: u64,
                     slot: ResponseRatchet, manual: Option<RiKey>)
    requires Lawful(c)
    requires slot.mode == snap.mode && slot.epoch == snap.epoch && slot.rk == snap.rk && slot.kRi == snap.kRi
    requires if snap.mode == MODE_RATCHET
             then snap.remotePub.Some? && slot.localSecret.Some?
               && c.kemPub(slot.localSecret.value) == snap.remotePub.value
             else snap.remotePub.None?
    ensures var t := Initiate(c, a, PeerAt(c, a, b, psk), snap, sid, counter, riKey, coins, ts);
            Accept(c, PeerAt(c, b, a, psk), Identified(t.fixed, slot, t.ri),
                   Authentic(t.ck, t.chain.hs, counter), t.msg, manual) ==
            Ok(Accepted(slot, t.ssR, t.chain, RiKeyFor(c, manual, snap.kRi)))
  {
    PeersMirror(c, a, b, psk);
    if snap.mode == MODE_RATCHET {
      assert c.decaps(slot.localSecret.value, c.encaps(c.kemPub(slot.localSecret.value), coins.ratchet).0)
             == c.encaps(snap.remotePub.value, coins.ratchet).1;
    }
  }

  /** `st` is what the initiator keeps of the initiation `m`. */
  predicate Remembers(c: Suite, st: SentState, m: Initiation) {
    && m.sender == st.localSid && st.local == SessionIndex(st.localSid)
    && m.ephemeral == c.dhPub(st.ephSk)
    && m.ephemeralPq == c.kemPub(st.ephSkPq) == st.ephPkPq
  }

  /** The responder accepted under the initiator's roots and chain. */
  predicate AcceptedAs(st: SentState, acc: Accepted) {
    && acc.chain == st.chain && acc.ssR == st.ssR
    && acc.slot.mode == st.mode && acc.slot.epoch == st.epoch && acc.slot.rk == st.rk && acc.slot.kRi == st.kRi
  }

  /** Both sides of the response schedule see the same secrets. */
  lemma ResponseSecretsAgree(c: Suite, a: KeyState, b: KeyState, psk: Hash, st: SentState, m: Initiation,
                             acc: Accepted, sidR: Sid, coins: ResponderCoins, ts: u64)
    requires Lawful(c) && Remembers(c, st, m) && acc.slot.epoch + 1 < TWO_64
    requires CreateResponse(c, PeerAt(c, b, a, psk), m, acc, sidR, coins, ts).Ok?
    ensures var atB := PeerAt(c, b, a, psk);
            var r := CreateResponse(c, atB, m, acc, sidR, coins, ts).value.msg;
            && r.receiver == st.localSid && r.sender == sidR && r.mode == acc.slot.mode && r.epoch == acc.slot.epoch
            && r.ephemeral == c.dhPub(coins.ephSk) && r.hashEphemeral == c.hash(r.ephemeralCt)
            && c.decaps(st.ephSkPq, r.ephemeralCt) == c.encaps(m.ephemeralPq, coins.eph).1
            && r.ephemeralCt == c.encaps(m.ephemeralPq, coins.eph).0
            && c.dh(a.sk, r.ephemeral) == c.dh(coins.ephSk, atB.pk) != c.zero32
            && c.dh(st.ephSk, r.ephemeral) == c.dh(coins.ephSk, m.ephemeral) != c.zero32
            && r.staticCt == c.stream(Kdf1(c, c.zero32, c.dh(coins.ephSk, atB.pk)),
               c.staticEncaps(atB.pkPq, coins.fixed).0)
            && c.staticDecaps(a.skPq, c.stream(Kdf1(c, c.zero32, c.dh(a.sk, r.ephemeral)), r.staticCt)) ==
               c.staticEncaps(atB.pkPq, coins.fixed).1
  {
  }

  /** From the same secrets the initiator's checks pass and its next epoch is the staged one. */
  lemma ConfirmAgrees(c: Suite, st: SentState, acc: Accepted, sh: Shared, m: Response,
                      coins: ResponderCoins, ts: u64, riKey: RiKey, now: nat)
    requires Lawful(c) && AcceptedAs(st, acc) && acc.slot.epoch + 1 < TWO_64
    requires var conf := Confirm(c, acc, sh, coins, ts); m.confirm == conf.confirm && m.auth == conf.auth
    ensures var conf := Confirm(c, acc, sh, coins, ts);
            var done := CheckConfirm(c, st, sh, m, riKey, now);
            && (done.Ok? ==>
                  && done.value.transport == Transport(true, KW.Key.Key(conf.keyRecv, SessionIndex(m.sender)),
                                                       KW.Key.Key(conf.keySend, st.local))
                  && SameEpochState(c, done.value, conf.next))
            && (riKey == acc.riKey && 1 <= coins.delta < RP.RANGE ==>
                  (done.Ok? <==> RP.Skew(now, ts) <= RP.MAX_SKEW))
  {
    var nextPub := c.kemPub(coins.nextSecret);
    var nextKid := DeriveKid(c, acc.slot.rk, acc.slot.epoch + 1, nextPub);
    var secret := RiSecret(c, acc.riKey, sh.chain.ck, sh.h7);
    var ri := MakeRi(c, acc.riKey, secret, coins.delta, coins.a, ts);
    var plain := PackConfirm(acc.slot.epoch + 1, ri, nextPub, nextKid);
    assert c.unseal(sh.key, sh.hs, m.confirm) == Some(plain);
    ConfirmRoundTrip(acc.slot.epoch + 1, ri, nextPub, nextKid);
    if 1 <= coins.delta < RP.RANGE {
      MadeRiVerifies(c, acc.riKey, secret, coins.delta, coins.a, ts, now);
    }
  }

  /** Whatever the initiator completes from an honest response mirrors what the responder staged. */
  lemma ResponseAgrees(c: Suite, a: KeyState, b: KeyState, psk: Hash, st: SentState, m: Initiation,
                       acc: Accepted, sidR: Sid, coins: ResponderCoins, ts: u64, riKey: RiKey, now: nat)
    requires Lawful(c) && Remembers(c, st, m) && AcceptedAs(st, acc) && acc.slot.epoch + 1 < TWO_64
    requires CreateResponse(c, PeerAt(c, b, a, psk), m, acc, sidR, coins, ts).Ok?
    ensures var rep := CreateResponse(c, PeerAt(c, b, a, psk), m, acc, sidR, coins, ts).value;
            var done := ConsumeResponse(c, a, PeerAt(c, a, b, psk), st, rep.msg, riKey, now);
            && (done.Ok? ==> Mirrored(done.value.transport, rep.transport) && SameEpochState(c, done.value, rep.next))
            && (riKey == acc.riKey && 1 <= coins.delta < RP.RANGE ==>
                  (done.Ok? <==> RP.Skew(now, ts) <= RP.MAX_SKEW))
  {
    var atB := PeerAt(c, b, a, psk);
    var rep := CreateResponse(c, atB, m, acc, sidR, coins, ts).value;
    ResponseSecretsAgree(c, a, b, psk, st, m, acc, sidR, coins, ts);
    var sh := ResponseKeys(c, acc.chain, psk, m.sender, sidR, m.ephemeralPq, rep.msg.ephemeral, rep.msg.ephemeralCt,
                           rep.msg.staticCt, rep.msg.hashEphemeral, c.encaps(m.ephemeralPq, coins.eph).1,
                           c.dh(coins.ephSk, m.ephemeral), c.dh(coins.ephSk, atB.pk),
                           c.staticEncaps(atB.pkPq, coins.fixed).1);
    ConfirmAgrees(c, st, acc, sh, rep.msg, coins, ts, riKey, now);
  }
}
