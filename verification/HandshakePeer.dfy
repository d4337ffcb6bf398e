/**
 * The peer object of a device as the source updates it: the handshake state, the counters and
 * the ratchet (src/wireguard_hybrid_new/handshake/peer.rs), and the bodies of noise.rs with
 * their running `ck` and `hs`. Every method is proved against the functions of `Noise`,
 * `Ratchets` and `Handshake`, about which the protocol results are stated.
 */
module HandshakePeer {
  import opened Base
  import opened Codec
  import opened Crypto
  import opened Ratchets
  import opened Noise
  import H = Handshake
  import KW = KeyWheel

  class Peer {
    const c: Suite
    const own: KeyState
    const keys: PeerKeys
    const ratchet: RatchetState
    var state: Option<SentState>
    var kSend: nat
    var kRecv: nat
    var lastConsumption: Option<nat>

    function Initiator(): H.Initiator
      reads this, ratchet
    {
      H.Initiator.Initiator(ratchet.View(), state, kSend)
    }

    function Responder(): H.Responder
      reads this, ratchet
    {
      H.Responder.Responder(ratchet.View(), kRecv, lastConsumption)
    }

    /** A new peer, with the roots that its pre-shared key gives. */
    constructor (c: Suite, own: KeyState, keys: PeerKeys)
      ensures this.c == c && this.own == own && this.keys == keys && fresh(ratchet)
      ensures var rk := DeriveRoot(c, c.tag(RootRk), keys.ownPkHash, keys.pkHash, keys.psk);
              var kRi := DeriveRoot(c, c.tag(RootKRi), keys.ownPkHash, keys.pkHash, keys.psk);
              && Initiator() == H.Initiator.Initiator(Start(rk, kRi), None, 0)
              && Responder() == H.Responder.Responder(Start(rk, kRi), 0, None)
    {
      this.c, this.own, this.keys := c, own, keys;
      ratchet := new RatchetState(DeriveRoot(c, c.tag(RootRk), keys.ownPkHash, keys.pkHash, keys.psk),
                                  DeriveRoot(c, c.tag(RootKRi), keys.ownPkHash, keys.pkHash, keys.psk));
      state, kSend, kRecv, lastConsumption := None, 0, 0, None;
    }

    /** The state of the peer changes only if an initiation comes out. */
    method CreateInitiation(sid: Sid, riKey: RiKey, coins: InitiatorCoins, now: u64)
      returns (r: Result<Initiation, HandshakeError>)
      requires kSend + 1 < H.COUNTERS
      modifies this`state, this`kSend
      ensures match Noise.CreateInitiation(c, own, keys, InitiationSnapshot(ratchet.View()), sid, old(kSend) + 1,
                                           riKey, coins, now)
              case Err(e) => r == Err(e) && state == old(state) && kSend == old(kSend)
              case Ok((m, st)) => r == Ok(m) && state == Some(st) && kSend == old(kSend) + 1
    {
      hide InitiationSnapshot, Kdf0, Kdf1, Kdf2, Le, Be, PackIdentity, MakeRi, SessionIndex, RiSecret, MixMaterial,
           PkHash,
           Pk, PkPq, H.COUNTERS;
      if keys.ss == c.zero32 {
        return Err(InvalidSharedSecret);
      }
      var snap := InitiationSnapshot(ratchet.View());

      var ck, hs := c.initialCk, c.initialHs;
      var modeEpoch := ModeEpoch(snap.mode, snap.epoch);
      hs := c.hash(hs + c.tag(Version) + keys.pkHash + modeEpoch);
      ck := Kdf1(c, ck, modeEpoch);

      var ephemeral: Hash := c.dhPub(coins.ephSk);
      var ephemeralPq: RatchetPub := c.kemPub(coins.ephSkPq);
      ck := Kdf1(c, ck, ephemeral + ephemeralPq);
      hs := c.hash(hs + ephemeral + ephemeralPq);

      var ssR: Bytes := c.zero32;
      var ratchetCt := Zeros(c.ratchetCtSize);
      if snap.remotePub.Some? {
        var (ct, shared) := c.encaps(snap.remotePub.value, coins.ratchet);
        ratchetCt := ct;
        ssR := shared;
      } else if snap.mode == MODE_RATCHET {
        return Err(RatchetStateMissing);
      }
      ck := Kdf1(c, ck, c.hash(c.tag(KemRPublic) + modeEpoch + snap.remoteKid + ratchetCt));
      hs := c.hash(hs + snap.remoteKid + ratchetCt);

      var (ct, shk1) := c.staticEncaps(keys.pkPq, coins.fixed);
      var dh: Hash := c.dh(coins.ephSk, keys.pk);
      if dh == c.zero32 {
        return Err(InvalidSharedSecret);
      }
      var staticCt := c.stream(Kdf1(c, c.zero32, dh), ct);
      var (ck3, key) := Kdf2(c, ck, dh + shk1);
      ck := ck3;
      hs := c.hash(hs + staticCt);

      var (ck4, key2) := Kdf2(c, ck, keys.ss + keys.hashStaticPqSend + keys.hIdSend + keys.psk);
      ck := ck4;
      var ri := MakeRi(c, riKey, RiSecret(c, riKey, ck, hs), coins.delta, coins.a, now);
      var identity := c.seal(key, hs, PackIdentity(PkHash(c, Pk(c, own), PkPq(c, own)), ri));
      hs := c.hash(hs + identity);

      kSend := kSend + 1;
      var timestamp := c.seal(key2, hs, Be(kSend, 16));
      hs := c.hash(hs + timestamp);
      var auth: Hash := c.hmac(key2, c.tag(AuthI) + hs);
      hs := c.hash(hs + auth);
      ck := MixMaterial(c, ck, snap.rk, snap.kRi, ssR, keys.hIdSend, hs, snap.mode, snap.epoch);

      state := Some(InitiationSent(SessionIndex(sid), sid, snap.mode, snap.epoch, coins.ephSk, coins.ephSkPq,
                                   ephemeralPq, snap.rk, snap.kRi, ssR, Chain(ck, hs)));
      r := Ok(Initiation(snap.mode, snap.epoch, sid, ephemeral, ephemeralPq, snap.remoteKid, ratchetCt,
                         staticCt, identity, timestamp, auth));
    }

    /**
     * Only a counter above every accepted one passes, and not too soon after the last; passing
     * drops an initiation of our own, whose id goes back to the device.
     */
    method CheckReplayFlood(kReceived: nat, instant: nat)
      returns (r: Option<HandshakeError>, released: Option<u32>)
      modifies this`state, this`kRecv, this`lastConsumption
      ensures r == H.ReplayOrFlood(old(Responder()), kReceived, instant)
      ensures r.Some? ==> unchanged(this) && released.None?
      ensures r.None? ==>
                && state.None? && Responder() == old(Responder()).(kRecv := kReceived, lastConsumption := Some(instant))
                && released == if old(state).Some? then Some(old(state).value.local) else None
    {
      released := None;
      if kReceived <= kRecv {
        return Some(OldTimestamp), None;
      }
      if lastConsumption.Some? {
        if instant < lastConsumption.value + TIME_BETWEEN_INITIATIONS {
          return Some(InitiationFlood), None;
        }
      }
      if state.Some? {
        released := Some(state.value.local);
      }
      state := None;
      kRecv := kReceived;
      lastConsumption := Some(instant);
      r := None;
    }

    method ConsumeInitiationFirstPart(m: Initiation) returns (r: Result<Identified, HandshakeError>)
      ensures r == ConsumeFirst(c, own, keys, ratchet.View(), m)
    {
      hide Kdf0, Kdf1, Kdf2, Le, UnpackIdentity, ResponseSnapshot;
      if m.mode > MODE_RESYNC {
        return Err(InvalidMode);
      }
      var ck, hs := c.initialCk, c.initialHs;
      var modeEpoch := ModeEpoch(m.mode, m.epoch);
      hs := c.hash(hs + c.tag(Version) + PkHash(c, Pk(c, own), PkPq(c, own)) + modeEpoch);
      ck := Kdf1(c, ck, modeEpoch);

      ck := Kdf1(c, ck, m.ephemeral + m.ephemeralPq);
      hs := c.hash(hs + m.ephemeral + m.ephemeralPq);

      ck := Kdf1(c, ck, c.hash(c.tag(KemRPublic) + modeEpoch + m.kid + m.ratchetCt));
      hs := c.hash(hs + m.kid + m.ratchetCt);

      var dh: Hash := c.dh(own.sk, m.ephemeral);
      if dh == c.zero32 {
        return Err(InvalidSharedSecret);
      }
      var shk1 := c.staticDecaps(own.skPq, c.stream(Kdf1(c, c.zero32, dh), m.staticCt));
      var (ck3, key) := Kdf2(c, ck, dh + shk1);
      ck := ck3;
      hs := c.hash(hs + m.staticCt);

      var plain := c.unseal(key, hs, m.identity);
      if plain.None? || |plain.value| != SIZE_IDENTITY_PLAIN {
        return Err(DecryptionFailure);
      }
      var unpacked := UnpackIdentity(plain.value);
      if unpacked.Err? {
        return Err(InvalidMessageFormat);
      }
      var (pkHash, ri) := unpacked.value;
      if pkHash != keys.pkHash {
        return Err(UnknownPublicKey);
      }
      var snapshot := ResponseSnapshot(ratchet.View(), m.mode, m.epoch, m.kid);
      if snapshot.Err? {
        return Err(snapshot.error);
      }
      r := Ok(Identified(Chain(ck, hs), snapshot.value, ri));
    }

    /** The replay check stands between authentication and the ratchet decapsulation. */
    method ConsumeInitiationSecondPart(id: Identified, m: Initiation, manual: Option<RiKey>, now: nat, instant: nat)
      returns (r: Result<Accepted, HandshakeError>, released: Option<u32>)
      modifies this`state, this`kRecv, this`lastConsumption
      ensures match Authenticate(c, keys, id, m, manual, now)
              case Err(e) => r == Err(e) && unchanged(this) && released.None?
              case Ok(au) =>
                match H.ReplayOrFlood(old(Responder()), au.counter, instant)
                case Some(e) => r == Err(e) && unchanged(this) && released.None?
                case None =>
                  && r == Accept(c, keys, id, au, m, manual) && state.None?
                  && Responder() == old(Responder()).(kRecv := au.counter, lastConsumption := Some(instant))
                  && released == if old(state).Some? then Some(old(state).value.local) else None
    {
      hide Kdf0, Kdf1, Kdf2, Le, RiVerifies, RiKeyFor, RiSecret, BeNat, H.ReplayOrFlood, MixMaterial;
      released := None;
      var slot := id.slot;
      var riKey := RiKeyFor(c, manual, slot.kRi);
      if keys.ss == c.zero32 {
        return Err(InvalidSharedSecret), None;
      }
      var ck, hs := id.fixed.ck, id.fixed.hs;
      var (ck4, key) := Kdf2(c, ck, keys.ss + keys.hashStaticPqRecv + keys.hIdRecv + keys.psk);
      ck := ck4;
      if !RiVerifies(c, riKey, RiSecret(c, riKey, ck, hs), id.ri, now) {
        return Err(InvalidTi), None;
      }
      hs := c.hash(hs + m.identity);
      var received := c.unseal(key, hs, m.timestamp);
      if received.None? || |received.value| != 16 {
        return Err(DecryptionFailure), None;
      }
      hs := c.hash(hs + m.timestamp);
      if c.hmac(key, c.tag(AuthI) + hs) != m.auth {
        return Err(DecryptionFailure), None;
      }
      var refused;
      refused, released := CheckReplayFlood(BeNat(received.value), instant);
      if refused.Some? {
        return Err(refused.value), released;
      }
      hs := c.hash(hs + m.auth);
      var ssR: Bytes := c.zero32;
      if slot.mode == MODE_RATCHET {
        if slot.localSecret.None? {
          return Err(RatchetStateMissing), released;
        }
        ssR := c.decaps(slot.localSecret.value, m.ratchetCt);
      }
      ck := MixMaterial(c, ck, slot.rk, slot.kRi, ssR, keys.hIdRecv, hs, slot.mode, slot.epoch);
      r := Ok(Accepted(slot, ssR, Chain(ck, hs), riKey));
    }

    /** A response goes out together with the staging of its next epoch, or nothing changes. */
    method CreateResponse(m: Initiation, acc: Accepted, sidR: Sid, coins: ResponderCoins, now: u64)
      returns (r: Result<(Response, Transport), HandshakeError>)
      requires acc.slot.epoch + 1 < TWO_64
      modifies ratchet
      ensures match Noise.CreateResponse(c, keys, m, acc, sidR, coins, now)
              case Err(e) => r == Err(e) && ratchet.View() == old(ratchet.View())
              case Ok(rep) => r == Ok((rep.msg, rep.transport)) &&
                              ratchet.View() == Stage(old(ratchet.View()), acc.slot, rep.next)
    {
      hide Kdf0, Kdf1, Kdf2, Kdf3, Le, MakeRi, RiSecret, PackConfirm, SessionIndex, Stage, DeriveKid, NextRoots;
      var slot := acc.slot;
      var ck, hs := acc.chain.ck, acc.chain.hs;
      var ephemeral: Hash := c.dhPub(coins.ephSk);
      var (ephemeralCt, master) := c.encaps(m.ephemeralPq, coins.eph);
      var hashEphemeral: Hash := c.hash(ephemeralCt);
      var salt := m.sender + sidR + m.ephemeralPq + hashEphemeral;
      var shk2Raw: Bytes := c.hkdf(salt, master, c.tag(Shk2));
      var shkEe: Bytes := c.hkdf(salt, master, c.tag(ShkEe));
      var (ct, shk3Raw) := c.staticEncaps(keys.pkPq, coins.fixed);
      var shk2: Hash := c.hash(shk2Raw + shkEe);
      var shk3: Hash := c.hash(shk3Raw + shkEe);

      var dhStatic: Hash := c.dh(coins.ephSk, keys.pk);
      if dhStatic == c.zero32 {
        return Err(InvalidSharedSecret);
      }
      var staticCt := c.stream(Kdf1(c, c.zero32, dhStatic), ct);
      ck := Kdf1(c, ck, ephemeral + ephemeralCt + hashEphemeral);
      hs := c.hash(hs + ephemeral + ephemeralCt + staticCt + hashEphemeral);

      var dhEphemeral: Hash := c.dh(coins.ephSk, m.ephemeral);
      if dhEphemeral == c.zero32 {
        return Err(InvalidSharedSecret);
      }
      ck := Kdf1(c, ck, dhEphemeral + shk2);
      ck := Kdf1(c, ck, dhStatic + shk3);
      var h7: Hash := c.hash(hs + shkEe);
      var (ckNext, tau, key) := Kdf3(c, ck, keys.psk);
      ck := ckNext;
      hs := c.hash(h7 + tau);

      var nextEpoch := slot.epoch + 1;
      var nextPub := c.kemPub(coins.nextSecret);
      var nextKid := DeriveKid(c, slot.rk, nextEpoch, nextPub);
      var ri := MakeRi(c, acc.riKey, RiSecret(c, acc.riKey, ck, h7), coins.delta, coins.a, now);
      var confirm := c.seal(key, hs, PackConfirm(nextEpoch, ri, nextPub, nextKid));
      hs := c.hash(hs + confirm);
      var auth: Hash := c.hmac(key, c.tag(AuthR) + hs);
      hs := c.hash(hs + auth);

      var kOut: Hash := c.hash(c.tag(SessionKey) + ck + hs);
      var (nextRk, nextKRi) := NextRoots(c, slot.rk, slot.kRi, kOut, acc.ssR, shk2, hs, nextKid, nextEpoch);
      ratchet.StageResponder(slot, nextEpoch, coins.nextSecret, nextKid, nextRk, nextKRi);

      var (keyRecv, keySend) := Kdf2(c, ck, c.tag(TransportTag));
      r := Ok((Response(slot.mode, slot.epoch, sidR, m.sender, ephemeral, ephemeralCt, staticCt, hashEphemeral,
                        confirm, auth),
               Transport(false, KW.Key.Key(keySend, SessionIndex(m.sender)), KW.Key.Key(keyRecv, SessionIndex(sidR)))));
    }

    /** A response that passes every check commits the next epoch and closes the initiation. */
    method ConsumeResponse(m: Response, riKey: RiKey, now: nat) returns (r: Result<Transport, HandshakeError>)
      modifies this`state, ratchet
      ensures old(state).None? ==>
                && state.None? && ratchet.View() == old(ratchet.View())
                && r == Err(if m.hashEphemeral != c.hash(m.ephemeralCt) then DecryptionFailure else InvalidState)
      ensures old(state).Some? ==>
                match Noise.ConsumeResponse(c, own, keys, old(state).value, m, riKey, now)
                case Err(e) => r == Err(e) && state == old(state) && ratchet.View() == old(ratchet.View())
                case Ok(done) =>
                  && r == Ok(done.transport) && state.None?
                  && ratchet.View() == Commit(old(ratchet.View()), done.epoch, done.pub, done.kid, done.rk, done.kRi)
    {
      hide Kdf0, Kdf1, Kdf2, Kdf3, Le, RiVerifies, RiSecret, UnpackConfirm, SessionIndex, NextRoots;
      if m.hashEphemeral != c.hash(m.ephemeralCt) {
        return Err(DecryptionFailure);
      }
      if state.None? {
        return Err(InvalidState);
      }
      var st := state.value;
      var ck, hs := st.chain.ck, st.chain.hs;
      if st.localSid != m.receiver {
        return Err(UnknownReceiverId);
      }
      if m.mode != st.mode || m.epoch != st.epoch {
        return Err(InvalidEpoch);
      }
      ck := Kdf1(c, ck, m.ephemeral + m.ephemeralCt + m.hashEphemeral);
      hs := c.hash(hs + m.ephemeral + m.ephemeralCt + m.staticCt + m.hashEphemeral);

      var master := c.decaps(st.ephSkPq, m.ephemeralCt);
      var salt := st.localSid + m.sender + st.ephPkPq + m.hashEphemeral;
      var shk2Raw: Bytes := c.hkdf(salt, master, c.tag(Shk2));
      var shkEe: Bytes := c.hkdf(salt, master, c.tag(ShkEe));
      var dhStatic: Hash := c.dh(own.sk, m.ephemeral);
      if dhStatic == c.zero32 {
        return Err(InvalidSharedSecret);
      }
      var shk3Raw := c.staticDecaps(own.skPq, c.stream(Kdf1(c, c.zero32, dhStatic), m.staticCt));
      var shk2: Hash := c.hash(shk2Raw + shkEe);
      var shk3: Hash := c.hash(shk3Raw + shkEe);

      var dhEphemeral: Hash := c.dh(st.ephSk, m.ephemeral);
      if dhEphemeral == c.zero32 {
        return Err(InvalidSharedSecret);
      }
      ck := Kdf1(c, ck, dhEphemeral + shk2);
      ck := Kdf1(c, ck, dhStatic + shk3);
      var h7: Hash := c.hash(hs + shkEe);
      var (ckNext, tau, key) := Kdf3(c, ck, keys.psk);
      ck := ckNext;
      hs := c.hash(h7 + tau);

      var plain := c.unseal(key, hs, m.confirm);
      if plain.None? || |plain.value| != SIZE_CONFIRM_PLAIN {
        return Err(DecryptionFailure);
      }
      var unpacked := UnpackConfirm(plain.value);
      if unpacked.Err? {
        return Err(InvalidConfirm);
      }
      var (nextEpoch, ri, nextPub, nextKid) := unpacked.value;
      if nextEpoch != st.epoch + 1 {
        return Err(InvalidConfirm);
      }
      hs := c.hash(hs + m.confirm);
      if c.hmac(key, c.tag(AuthR) + hs) != m.auth {
        return Err(DecryptionFailure);
      }
      hs := c.hash(hs + m.auth);
      if !RiVerifies(c, riKey, RiSecret(c, riKey, ck, h7), ri, now) {
        return Err(InvalidTr);
      }
      var kOut: Hash := c.hash(c.tag(SessionKey) + ck + hs);
      var (nextRk, nextKRi) := NextRoots(c, st.rk, st.kRi, kOut, st.ssR, shk2, hs, nextKid, nextEpoch);
      var (keySend, keyRecv) := Kdf2(c, ck, c.tag(TransportTag));
      state := None;
      ratchet.CommitInitiator(nextEpoch, nextPub, nextKid, nextRk, nextKRi);
      r := Ok(Transport(true, KW.Key.Key(keySend, SessionIndex(m.sender)), KW.Key.Key(keyRecv, st.local)));
    }

    // ------------------------------------------- the steps of the protocol machine

    /** `begin` of the device on this peer; `g` is the pair this peer belongs to. */
    method Begin(ghost g: H.Config, manual: Option<RiKey>, sid: Sid, coins: InitiatorCoins, now: u64)
      returns (r: Result<Initiation, HandshakeError>)
      requires g.c == c && g.a == own && H.AtA(g) == keys && g.manual == manual && kSend + 1 < H.COUNTERS
      modifies this`state, this`kSend
      ensures match H.Begin(g, old(Initiator()), sid, coins, now)
              case Err(e) => r == Err(e) && Initiator() == old(Initiator())
              case Ok((m, i)) => r == Ok(m) && Initiator() == i
    {
      hide Noise.CreateInitiation, RiKeyFor, InitiationSnapshot, H.COUNTERS;
      r := CreateInitiation(sid, RiKeyFor(c, manual, ratchet.kRi), coins, now);
    }

    /** `process` of an initiation on this peer. */
    method ProcessInitiation(ghost g: H.Config, m: Initiation, manual: Option<RiKey>, sidR: Sid,
                             coins: ResponderCoins, now: u64, instant: nat)
      returns (r: Result<(Response, Transport), HandshakeError>)
      requires g.c == c && g.b == own && H.AtB(g) == keys && g.manual == manual && m.epoch + 1 < TWO_64
      modifies this`state, this`kRecv, this`lastConsumption, ratchet
      ensures var (after, answer) := H.Respond(g, old(Responder()), m, sidR, coins, now, instant);
              && Responder() == after
              && match answer
                 case Refused(e) => r == Err(e)
                 case Answered(_, rep) => r == Ok((rep.msg, rep.transport))
    {
      hide ConsumeFirst, Authenticate, Accept, Noise.CreateResponse, H.ReplayOrFlood, Stage;
      var first := ConsumeInitiationFirstPart(m);
      if first.Err? {
        return Err(first.error);
      }
      var second, released := ConsumeInitiationSecondPart(first.value, m, manual, now, instant);
      if second.Err? {
        return Err(second.error);
      }
      r := CreateResponse(m, second.value, sidR, coins, now);
    }

    /** `process` of a response on this peer. */
    method ProcessResponse(ghost g: H.Config, m: Response, manual: Option<RiKey>, now: nat)
      returns (r: Result<Transport, HandshakeError>)
      requires g.c == c && g.a == own && H.AtA(g) == keys && g.manual == manual
      modifies this`state, ratchet
      ensures var (after, done) := H.Complete(g, old(Initiator()), m, now);
              && Initiator() == after
              && r == match done case Err(e) => Err(e) case Ok(d) => Ok(d.transport)
    {
      hide Noise.ConsumeResponse, RiKeyFor, Commit;
      r := ConsumeResponse(m, RiKeyFor(c, manual, ratchet.kRi), now);
    }
  }
}
