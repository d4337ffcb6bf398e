/**
 * Exactly which messages are accepted (src/wireguard_hybrid_new/handshake/noise.rs, peer.rs):
 * for any message, from whom ever, in terms of the primitives.
 */
module Acceptance {
  import opened Base
  import opened Codec
  import opened Crypto
  import opened Ratchets
  import opened Noise
  import opened Handshake
  import opened Binding

  /** The key that is second in a derivation from `ck`. */
  function SecondKey(c: Suite, ck: Bytes, input: Bytes): Hash {
    var t := c.hmac(ck, input);
    c.hmac(t, c.hmac(t, [1]) + [2])
  }

  /** The key of the identity block, and that of the counter and of the final tag. */
  function IdentityKey(c: Suite, h: Hello): Hash {
    SecondKey(c, OpeningOf(c, h.clear).ck, h.dh + h.shk)
  }

  function CounterKey(c: Suite, h: Hello): Hash {
    SecondKey(c, Ck4(c, h), IdsIn(h))
  }

  function RiKeyAt(c: Suite, manual: Option<RiKey>, kRi: Hash): RiKey {
    if manual.Some? then manual.value else c.hash(c.tag(RiKeyTag) + kRi)[..8]
  }

  /** The identity block opens to the peer's key hash and an RI proof that holds. */
  ghost predicate NamesThePeer(x: Reading)
    requires SlotAt(x.r.ratchet, x.m.epoch).Some?
  {
    var c, h := x.g.c, HelloR(x);
    var plain := c.unseal(IdentityKey(c, h), c.hash(Hs3In(c, h)), x.m.identity);
    && plain.Some? && |plain.value| == 72
    && LeNat(plain.value[64..68]) == 0x2_0003 && plain.value[..32] == AtB(x.g).pkHash
    && var riKey := RiKeyAt(c, x.g.manual, SlotOf(x).kRi);
       RiVerifies(c, riKey, RiSecret(c, riKey, Ck5(c, h), c.hash(Hs3In(c, h))), UnpackRi(plain.value[32..64]), x.now)
  }

  /** The counter opens, is new and not early, and the final tag is right. */
  ghost predicate CountsOn(x: Reading)
    requires SlotAt(x.r.ratchet, x.m.epoch).Some?
  {
    var c, h := x.g.c, HelloR(x);
    var plain := c.unseal(CounterKey(c, h), c.hash(Hs4In(c, h)), x.m.timestamp);
    && plain.Some? && |plain.value| == 16 && BeNat(plain.value) > x.r.kRecv
    && x.m.auth == c.hmac(CounterKey(c, h), c.tag(AuthI) + c.hash(Hs5In(c, h)))
    && (x.r.lastConsumption.Some? ==> x.instant >= x.r.lastConsumption.value + 20)
  }

  /** Some slot of the ratchet answers the epoch, and in ratchet mode the key that was encapsulated to. */
  predicate NamesASlot(x: Reading) {
    && SlotAt(x.r.ratchet, x.m.epoch).Some? && x.m.mode <= 2
    && (x.m.mode == 0 ==> x.m.epoch == 0 && x.r.ratchet.epoch == 0)
    && (x.m.mode == 1 ==> SlotOf(x).localKid == Some(x.m.kid) && SlotOf(x).localSecret.Some?)
  }

  predicate NoSecretIsZero(x: Reading) {
    var c := x.g.c;
    && c.dh(x.g.b.sk, x.m.ephemeral) != c.zero32 && AtB(x.g).ss != c.zero32
    && c.dh(x.coins.ephSk, AtB(x.g).pk) != c.zero32 && c.dh(x.coins.ephSk, x.m.ephemeral) != c.zero32
  }

  function First(x: Reading): Result<Identified, HandshakeError> {
    ConsumeFirst(x.g.c, x.g.b, AtB(x.g), x.r.ratchet, x.m)
  }

  function Second(x: Reading, id: Identified): Result<Authentic, HandshakeError> {
    Authenticate(x.g.c, AtB(x.g), id, x.m, x.g.manual, x.now)
  }

  lemma FirstExactly(x: Reading)
    ensures First(x).Ok? ==> SlotAt(x.r.ratchet, x.m.epoch).Some?
    ensures SlotAt(x.r.ratchet, x.m.epoch).Some? ==>
              var c, h := x.g.c, HelloR(x);
              var plain := c.unseal(IdentityKey(c, h), c.hash(Hs3In(c, h)), x.m.identity);
              && (First(x).Ok? <==>
                    && x.m.mode <= 2 && c.dh(x.g.b.sk, x.m.ephemeral) != c.zero32
                    && (x.m.mode == 0 ==> x.m.epoch == 0 && x.r.ratchet.epoch == 0)
                    && (x.m.mode == 1 ==> SlotOf(x).localKid == Some(x.m.kid))
                    && plain.Some? && |plain.value| == 72
                    && LeNat(plain.value[64..68]) == 0x2_0003 && plain.value[..32] == AtB(x.g).pkHash)
              && (First(x).Ok? ==> First(x).value.ri == UnpackRi(plain.value[32..64]))
  {
    hide SsROf, Opening, PeerAt, UnpackRi, SlotAt, ResponseSnapshot;
    AnsweredExactly(x.r.ratchet, x.m.mode, x.m.epoch, x.m.kid);
  }

  lemma SecondExactly(x: Reading, id: Identified)
    requires SlotAt(x.r.ratchet, x.m.epoch).Some?
    requires var h := HelloR(x); id.fixed == Chain(Ck4(x.g.c, h), x.g.c.hash(Hs3In(x.g.c, h)))
    requires id.slot.kRi == SlotOf(x).kRi
    ensures var c, h := x.g.c, HelloR(x);
            var plain := c.unseal(CounterKey(c, h), c.hash(Hs4In(c, h)), x.m.timestamp);
            var riKey := RiKeyAt(c, x.g.manual, SlotOf(x).kRi);
            && (Second(x, id).Ok? <==>
                  && AtB(x.g).ss != c.zero32
                  && RiVerifies(c, riKey, RiSecret(c, riKey, Ck5(c, h), c.hash(Hs3In(c, h))), id.ri, x.now)
                  && plain.Some? && |plain.value| == 16
                  && x.m.auth == c.hmac(CounterKey(c, h), c.tag(AuthI) + c.hash(Hs5In(c, h))))
            && (Second(x, id).Ok? ==> Second(x, id).value.counter == BeNat(plain.value))
  {
    hide SsROf, Opening, PeerAt, SlotAt, RiVerifies, RiSecret, Ck4, Hs3In;
    KdfsAlike(x.g.c, Ck4(x.g.c, HelloR(x)), IdsIn(HelloR(x)));
  }

  /**
   * An initiation is answered exactly if it opens under the chain that it makes with the
   * responder's keys, names the configured peer and a slot of the ratchet, and carries an RI proof
   * that holds, a new counter and the right tag; and no shared secret is zero.
   */
  lemma AnsweredIffGenuine(x: Reading)
    requires x.m.epoch + 1 < TWO_64
    ensures IsAnswered(x) <==> NamesASlot(x) && NamesThePeer(x) && CountsOn(x) && NoSecretIsZero(x)
  {
    hide ConsumeFirst, Authenticate, CreateResponse, ResponseSnapshot, SlotAt, HelloR, PeerAt, Ck4, Ck5, Hs3In, Hs4In,
         Hs5In, Hs6In,
         SsROf, RiVerifies, RiSecret, IdentityKey, CounterKey, MixMaterial;
    FirstExactly(x);
    if First(x).Ok? {
      var id := First(x).value;
      FirstFollows(x);
      SnapshotIsSlot(x.r.ratchet, x.m.mode, x.m.epoch, x.m.kid);
      SecondExactly(x, id);
    }
  }

  /** The initiation is read: all checks pass that come before the ratchet secret and the response. */
  ghost predicate IsRead(x: Reading) {
    && SlotAt(x.r.ratchet, x.m.epoch).Some? && x.m.mode <= 2
    && (x.m.mode == 0 ==> x.m.epoch == 0 && x.r.ratchet.epoch == 0)
    && (x.m.mode == 1 ==> SlotOf(x).localKid == Some(x.m.kid))
    && x.g.c.dh(x.g.b.sk, x.m.ephemeral) != x.g.c.zero32 && AtB(x.g).ss != x.g.c.zero32
    && NamesThePeer(x) && CountsOn(x)
  }

  function CounterIn(x: Reading): nat
    requires SlotAt(x.r.ratchet, x.m.epoch).Some?
  {
    var c, h := x.g.c, HelloR(x);
    var plain := c.unseal(CounterKey(c, h), c.hash(Hs4In(c, h)), x.m.timestamp);
    if plain.Some? then BeNat(plain.value) else 0
  }

  /** A refused initiation leaves no trace, except that one that was read has used up its counter. */
  lemma RefusedLeavesTheRatchet(x: Reading)
    requires x.m.epoch + 1 < TWO_64 && !IsAnswered(x)
    ensures Respond(x.g, x.r, x.m, x.sidR, x.coins, x.now, x.instant).0 ==
            if IsRead(x) then x.r.(kRecv := CounterIn(x), lastConsumption := Some(x.instant)) else x.r
  {
    hide ConsumeFirst, Authenticate, CreateResponse, ResponseSnapshot, SlotAt, HelloR, PeerAt, Ck4, Ck5, Hs3In, Hs4In,
         Hs5In, Hs6In,
         SsROf, RiVerifies, RiSecret, IdentityKey, CounterKey, MixMaterial;
    FirstExactly(x);
    if First(x).Ok? {
      var id := First(x).value;
      FirstFollows(x);
      SnapshotIsSlot(x.r.ratchet, x.m.mode, x.m.epoch, x.m.kid);
      SecondExactly(x, id);
    }
  }

  /** An answered one moves the counter, and the slot it was accepted under becomes the committed one. */
  lemma AnsweredMovesOn(x: Reading)
    requires IsAnswered(x)
    ensures SlotAt(x.r.ratchet, x.m.epoch).Some?
    ensures var r, at := After(x).ratchet, SlotOf(x);
            && After(x).kRecv == CounterIn(x) > x.r.kRecv && After(x).lastConsumption == Some(x.instant)
            && r.epoch == x.m.epoch && r.rk == at.rk && r.kRi == at.kRi
            && r.localKid == at.localKid && r.localSecret == at.localSecret
            && r.remoteKid == x.r.ratchet.remoteKid && r.remotePub == x.r.ratchet.remotePub
            && r.pending == Some(ReplyOf(x).next) && ReplyOf(x).next.epoch == x.m.epoch + 1
  {
    hide ConsumeFirst, Authenticate, CreateResponse, ResponseSnapshot, HelloR, PeerAt, Ck4, Ck5, Hs3In, Hs4In, Hs5In,
         Hs6In,
         SsROf, RiVerifies, RiSecret, IdentityKey, CounterKey, MixMaterial;
    FirstExactly(x);
    var id := First(x).value;
    FirstFollows(x);
    SnapshotIsSlot(x.r.ratchet, x.m.mode, x.m.epoch, x.m.kid);
    AnsweredExactly(x.r.ratchet, x.m.mode, x.m.epoch, x.m.kid);
    SecondExactly(x, id);
  }

  // ------------------------------------------------------------------ initiator

  /** The confirm block opens to the next epoch and an RI proof that holds, and the final tag is right. */
  ghost predicate Confirms(c: Suite, keys: Shared, msg: Response, epoch: nat, riKey: RiKey, now: nat) {
    var plain := c.unseal(keys.key, keys.hs, msg.confirm);
    && plain.Some? && |plain.value| == 864
    && LeNat(plain.value[856..860]) == 0x2_0003 && LeNat(plain.value[..8]) == epoch + 1
    && msg.auth == c.hmac(keys.key, c.tag(AuthR) + c.hash(keys.hs + msg.confirm))
    && RiVerifies(c, riKey, RiSecret(c, riKey, keys.chain.ck, keys.h7), UnpackRi(plain.value[8..40]), now)
  }

  /**
   * A response completes a handshake exactly if it answers the ids, mode and epoch sent, its hash
   * and its confirm block are right, and no shared secret is zero; and then the next epoch, ratchet
   * key and key id are those in the block.
   */
  lemma CompletedIffGenuine(x: Calling)
    requires HasBegun(x)
    ensures var c := x.g.c;
            IsComplete(x) <==>
              && x.msg.hashEphemeral == c.hash(x.msg.ephemeralCt) && x.msg.receiver == x.sid
              && x.msg.mode == Sent(x).mode && x.msg.epoch == Sent(x).epoch
              && c.dh(x.g.a.sk, x.msg.ephemeral) != c.zero32 && c.dh(x.coins.ephSk, x.msg.ephemeral) != c.zero32
              && Confirms(c, KeysOf(c, AnsweringI(x)), x.msg, x.i.ratchet.epoch,
                 RiKeyAt(c, x.g.manual, x.i.ratchet.kRi), x.now)
    ensures IsComplete(x) ==>
              var keys := KeysOf(x.g.c, AnsweringI(x));
              var plain := x.g.c.unseal(keys.key, keys.hs, x.msg.confirm);
              && plain.Some? && |plain.value| == 864 && Committed(x).epoch == x.i.ratchet.epoch + 1
              && Committed(x).remotePub == Some(plain.value[40..840])
                 && Committed(x).remoteKid == Some(plain.value[840..856])
              && Committed(x).localKid == x.i.ratchet.localKid && Committed(x).localSecret == x.i.ratchet.localSecret
              && Committed(x).pending == x.i.ratchet.pending
  {
    hide Begin, PeerAt, RiVerifies, RiSecret, ResponseKeys, HelloI, HelloChain, SsRI, UnpackRi;
    BeginFollows(x);
    EpochOf(x);
  }

  lemma EpochOf(x: Calling)
    requires HasBegun(x)
    ensures Sent(x).epoch == x.i.ratchet.epoch && Waiting(x).ratchet == x.i.ratchet
    ensures !IsComplete(x) ==> Complete(x.g, Waiting(x), x.msg, x.now).0 == Waiting(x)
  {
    hide PeerAt, Opening, ConsumeResponse, MixMaterial;
  }

  // -------------------------------------------------------------- transport ids

  /** The first four bytes, least significant first. */
  function FirstWord(b: Sid): nat {
    var b0: nat, b1: nat, b2: nat, b3: nat := b[0], b[1], b[2], b[3];
    b0 + 0x100 * b1 + 0x1_0000 * b2 + 0x100_0000 * b3
  }

  lemma IndexIsFirstWord(b: Sid)
    ensures SessionIndex(b) == FirstWord(b)
  {
    var w := b[..4];
    assert w[1..] == b[1..4] && b[1..4][1..] == b[2..4] && b[2..4][1..] == [b[3]] && [b[3]][1..] == [];
    assert LeNat([b[3]]) == b[3] + 256 * LeNat([]);
    assert LeNat(b[2..4]) == b[2] + 256 * LeNat([b[3]]);
    assert LeNat(b[1..4]) == b[1] + 256 * LeNat(b[2..4]);
  }

  /** Each side sends to the id that the other chose, and receives under its own. */
  lemma TransportIds(x: Reading, y: Calling)
    ensures IsAnswered(x) ==>
              var t := ReplyOf(x).transport;
              !t.initiator && t.send.id == FirstWord(x.m.sender) && t.recv.id == FirstWord(x.sidR)
    ensures IsComplete(y) ==>
              var t := DoneOf(y).transport;
              t.initiator && t.send.id == FirstWord(y.msg.sender) && t.recv.id == FirstWord(y.sid)
  {
    if IsAnswered(x) {
      AnswerIds(x);
      IndexIsFirstWord(x.m.sender);
      IndexIsFirstWord(x.sidR);
    }
    if IsComplete(y) {
      CompletionIds(y);
      IndexIsFirstWord(y.msg.sender);
      IndexIsFirstWord(y.sid);
    }
  }

  lemma AnswerIds(x: Reading)
    requires IsAnswered(x)
    ensures var t := ReplyOf(x).transport;
            !t.initiator && t.send.id == SessionIndex(x.m.sender) && t.recv.id == SessionIndex(x.sidR)
  {
    hide ConsumeFirst, Authenticate, Accept, PeerAt, ResponseKeys, Confirm, SessionIndex;
  }

  lemma CompletionIds(y: Calling)
    requires IsComplete(y)
    ensures var t := DoneOf(y).transport;
            t.initiator && t.send.id == SessionIndex(y.msg.sender) && t.recv.id == SessionIndex(y.sid)
  {
    hide Initiate, PeerAt, ResponseKeys, RiVerifies, RiKeyFor, SessionIndex, UnpackConfirm, InitiationSnapshot;
  }
}
